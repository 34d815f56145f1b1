/**
 * The checks the older server applies to a message flagged as a server
 * message: an ordered chain of tests, the first failing one giving the
 * single reason code.  The hub's lookups it consults are parameters.
 */
module Validation {
  import opened Js
  import opened LegacyEnvelope

  /** The reason codes of `ERRORS`. */
  datatype Reason =
    | NonExistentChannel
    | NonExistentReceiver
    | InvalidSender
    | NoType
    | NotAuthenticated
    | SenderNotInChannel
    | ReceiverNotInChannel
    | AuthFailed

  /** The frozen code string of each reason. */
  function Code(e: Reason): (s: string)
    ensures |s| > 0
  {
    match e
    case NonExistentChannel => "NON-EXISTENT-CHANNEL"
    case NonExistentReceiver => "NON-EXISTENT-RECEIVER"
    case InvalidSender => "INVALID-SENDER"
    case NoType => "NO-TYPE"
    case NotAuthenticated => "NOT-AUTHENTICATED"
    case SenderNotInChannel => "SENDER-NOT-IN-CHANNEL"
    case ReceiverNotInChannel => "RECEIVER-NOT-IN-CHANNEL"
    case AuthFailed => "AUTH-FAILED"
  }

  /** `ERRORS`: the eight codes. */
  const Errors: seq<Reason> := [NonExistentChannel, NonExistentReceiver, InvalidSender, NoType,
                                NotAuthenticated, SenderNotInChannel, ReceiverNotInChannel, AuthFailed]

  /** The eight codes are distinct strings, and none is the empty "no reason". */
  lemma CodesDistinct()
    ensures forall i, j :: 0 <= i < j < |Errors| ==> Code(Errors[i]) != Code(Errors[j])
    ensures forall e: Reason :: e in Errors
  {
    forall e: Reason ensures e in Errors {
      var k := match e
        case NonExistentChannel => 0
        case NonExistentReceiver => 1
        case InvalidSender => 2
        case NoType => 3
        case NotAuthenticated => 4
        case SenderNotInChannel => 5
        case ReceiverNotInChannel => 6
        case AuthFailed => 7;
      assert Errors[k] == e;
    }
  }

  /** The hub's lookups the chain consults. */
  datatype Lookups = Lookups(
    authenticatedUserExists: Value -> bool,
    channelExists: Value -> bool,
    userIsInChannel: Value -> bool)

  /** `validateServerMessage(message, user, hub)` as written: the type test
      rejects a message that HAS a type. */
  function ValidateServerMessageAsWritten(m: Message, user: Value, hub: Lookups): (reason: string)
    ensures user == Null ==> reason == Code(NotAuthenticated)
    ensures user != Null && Truthy(m.msgType) ==> reason == Code(NoType)
    ensures reason == "" ==> !Truthy(m.msgType)
  {
    if user == Null then Code(NotAuthenticated)
    else if Truthy(m.msgType) then Code(NoType)
    else if m.from != user then Code(InvalidSender)
    else if !hub.authenticatedUserExists(m.to) then Code(NonExistentReceiver)
    else if !hub.channelExists(m.channel) then Code(NonExistentChannel)
    else if !hub.userIsInChannel(user) then Code(SenderNotInChannel)
    else if !hub.userIsInChannel(m.to) then Code(ReceiverNotInChannel)
    else ""
  }

  /** The chain as intended: a message WITHOUT a type is rejected. */
  function ValidateServerMessage(m: Message, user: Value, hub: Lookups): (reason: string)
    ensures user == Null ==> reason == Code(NotAuthenticated)
    ensures user != Null && !Truthy(m.msgType) ==> reason == Code(NoType)
    ensures reason == "" ==> Truthy(m.msgType) && m.from == user && user != Null
  {
    if user == Null then Code(NotAuthenticated)
    else if !Truthy(m.msgType) then Code(NoType)
    else if m.from != user then Code(InvalidSender)
    else if !hub.authenticatedUserExists(m.to) then Code(NonExistentReceiver)
    else if !hub.channelExists(m.channel) then Code(NonExistentChannel)
    else if !hub.userIsInChannel(user) then Code(SenderNotInChannel)
    else if !hub.userIsInChannel(m.to) then Code(ReceiverNotInChannel)
    else ""
  }

  /** The order in which the chain tests. */
  const Order: seq<Reason> := [NotAuthenticated, NoType, InvalidSender, NonExistentReceiver,
                               NonExistentChannel, SenderNotInChannel, ReceiverNotInChannel]

  /** Whether the test for reason `e` fails on the message; `typed` says
      whether the type test asks for a type (as intended) or for none (as written). */
  predicate Fails(e: Reason, m: Message, user: Value, hub: Lookups, typed: bool)
  {
    match e
    case NotAuthenticated => user == Null
    case NoType => if typed then !Truthy(m.msgType) else Truthy(m.msgType)
    case InvalidSender => m.from != user
    case NonExistentReceiver => !hub.authenticatedUserExists(m.to)
    case NonExistentChannel => !hub.channelExists(m.channel)
    case SenderNotInChannel => !hub.userIsInChannel(user)
    case ReceiverNotInChannel => !hub.userIsInChannel(m.to)
    case AuthFailed => false
  }

  /** The index of the first reason of `order` whose test fails, or -1. */
  function FirstFailure(order: seq<Reason>, m: Message, user: Value, hub: Lookups, typed: bool): (i: int)
    ensures -1 <= i < |order|
    ensures i == -1 <==> forall k :: 0 <= k < |order| ==> !Fails(order[k], m, user, hub, typed)
    ensures 0 <= i ==> (Fails(order[i], m, user, hub, typed)
      && forall k :: 0 <= k < i ==> !Fails(order[k], m, user, hub, typed))
  {
    if |order| == 0 then -1
    else if Fails(order[0], m, user, hub, typed) then 0
    else
      var j := FirstFailure(order[1..], m, user, hub, typed);
      if j == -1 then -1 else j + 1
  }

  /** The reason code of the first failing test, or `""`. */
  function FirstReason(m: Message, user: Value, hub: Lookups, typed: bool): string
  {
    var i := FirstFailure(Order, m, user, hub, typed);
    if i < 0 then "" else Code(Order[i])
  }

  lemma OrderEntries()
    ensures |Order| == 7
    ensures Order[0] == NotAuthenticated && Order[1] == NoType && Order[2] == InvalidSender
    ensures Order[3] == NonExistentReceiver && Order[4] == NonExistentChannel
    ensures Order[5] == SenderNotInChannel && Order[6] == ReceiverNotInChannel
  {
  }

  /** The chain as written returns the code of the first test that fails,
      in the fixed order, or `""` when none fails. */
  lemma ChainAsWrittenIsFirstFailure(m: Message, user: Value, hub: Lookups)
    ensures ValidateServerMessageAsWritten(m, user, hub) == FirstReason(m, user, hub, false)
  {
    OrderEntries();
  }

  /** So does the intended chain; it returns `""` exactly when no test fails. */
  lemma ChainIsFirstFailure(m: Message, user: Value, hub: Lookups)
    ensures ValidateServerMessage(m, user, hub) == FirstReason(m, user, hub, true)
    ensures ValidateServerMessage(m, user, hub) == "" <==> forall e :: e in Order ==> !Fails(e, m, user, hub, true)
  {
    OrderEntries();
  }

  /** A typed, well-addressed message from the authenticated sender passes
      the intended chain and is rejected with NO-TYPE as written; an untyped
      one passes the type test as written only. */
  lemma NoTypeIsInverted(m: Message, user: Value, hub: Lookups)
    requires user != Null && m.from == user
    requires hub.authenticatedUserExists(m.to) && hub.channelExists(m.channel)
    requires hub.userIsInChannel(user) && hub.userIsInChannel(m.to)
    ensures Truthy(m.msgType) ==> (ValidateServerMessageAsWritten(m, user, hub) == Code(NoType)
      && ValidateServerMessage(m, user, hub) == "")
    ensures !Truthy(m.msgType) ==> (ValidateServerMessageAsWritten(m, user, hub) == ""
      && ValidateServerMessage(m, user, hub) == Code(NoType))
  {
  }

  /** `validate(message, user, hub)`: the chain runs for a message with the
      server flag, but its reason is dropped, so the result is `undefined`
      either way. */
  function Validate(m: Message, user: Value, hub: Lookups): (r: Value)
    ensures r == Undefined
  {
    if Truthy(m.server) then
      var _ := ValidateServerMessage(m, user, hub);
      Undefined
    else Undefined
  }
}
