/**
 * The enveloped message shape (`BaseMessage`, `Message<T>`, request/response/error
 * variants) and its duck-typed classification guards.
 *
 * A JavaScript object may or may not carry each optional property, and a property
 * may be present yet hold `undefined`; `Field` keeps those three cases apart, since
 * `!== undefined` and the `in` operator tell them apart differently.
 */
module Envelope {

  datatype Direction = ParentToChild | ChildToParent | ChildToChild

  /** A property of a JavaScript object: absent, present but `undefined`, or present with a value. */
  datatype Field<T> = Missing | Undefined | Present(value: T) {
    /** `obj.key !== undefined` */
    predicate Defined() { Present? }
    /** `'key' in obj` */
    predicate HasKey() { !Missing? }
  }

  datatype ErrorInfo = ErrorInfo(code: string, message: string)

  /**
   * A message: the `BaseMessage` fields, the `payload` of `Message<T>`, and the extra
   * properties by which the guards recognise errors, requests and responses.
   */
  datatype Message<P> = Message(
    id: string,
    typ: string,
    timestamp: int,
    source: string,
    target: Field<string>,
    direction: Direction,
    payload: Field<P>,
    code: Field<string>,
    message: Field<string>,
    correlationId: Field<string>,
    success: Field<bool>,
    error: Field<ErrorInfo>)

  /** `isErrorMessage`: both `code` and `message` are defined. */
  predicate IsErrorMessage<P>(m: Message<P>) {
    m.code.Defined() && m.message.Defined()
  }

  /** `isRequestMessage`: `correlationId` is defined. */
  predicate IsRequestMessage<P>(m: Message<P>) {
    m.correlationId.Defined()
  }

  /** `isResponseMessage`: both `correlationId` and `success` are defined. */
  predicate IsResponseMessage<P>(m: Message<P>) {
    m.correlationId.Defined() && m.success.Defined()
  }

  /**
   * An error needs both fields defined: a missing or `undefined` `code` or `message`
   * rules it out, even when the property itself is present on the object.
   */
  lemma ErrorNeedsCodeAndMessage<P>(m: Message<P>)
    ensures IsErrorMessage(m) ==> m.code.Defined() && m.message.Defined()
    ensures m.code == Undefined || m.message == Undefined ==> !IsErrorMessage(m)
    ensures m.code == Missing || m.message == Missing ==> !IsErrorMessage(m)
  {
  }

  /** Every message the guards classify as a response is also classified as a request. */
  lemma ResponseIsRequest<P>(m: Message<P>)
    ensures IsResponseMessage(m) ==> IsRequestMessage(m)
  {
  }

  /** The guards test definedness, not truthiness: `success: false` still makes a response. */
  lemma FailedReplyIsResponse<P>(m: Message<P>)
    requires m.correlationId.Defined() && m.success == Present(false)
    ensures IsResponseMessage(m)
  {
  }

  /** A property that is present but holds `undefined` does not count: the guards reject it. */
  lemma UndefinedCorrelationIsNotRequest<P>(m: Message<P>)
    requires m.correlationId == Undefined
    ensures !IsRequestMessage(m) && !IsResponseMessage(m)
  {
  }

  /** `createMessageType<T>().is`: a placeholder guard that accepts every message. */
  predicate UncheckedIs<P>(m: Message<P>) {
    true
  }

  /** The placeholder guard accepts every message, including errors and messages without a payload. */
  lemma UncheckedIsAcceptsAll<P>(m: Message<P>)
    ensures UncheckedIs(m)
  {
  }
}
