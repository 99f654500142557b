/**
 * `sendSMSNotification` of app/utils/sms.ts: one `messages.create` per phone
 * number, all issued before any is awaited, and `true` exactly when every one
 * of them resolves. The SMS provider is the oracle `resolves`: `resolves(i)`
 * says whether the create call for the i-th number succeeds.
 */
module Sms {
  import opened Wrappers

  /** One `messages.create({body, to, from})` call. The body is kept abstract. */
  datatype Message<T> = Message(body: T, to: string, from: Option<string>)

  datatype SendReport<T> = SendReport(ok: bool, attempts: seq<Message<T>>)

  /** `phoneNumbers.map(...)`: one create call per entry, in list order. */
  function Fanout<T>(body: T, phoneNumbers: seq<string>, from: Option<string>): (calls: seq<Message<T>>)
    ensures |calls| == |phoneNumbers|
    ensures forall i :: 0 <= i < |phoneNumbers| ==> calls[i] == Message(body, phoneNumbers[i], from)
  {
    if phoneNumbers == [] then [] else [Message(body, phoneNumbers[0], from)] + Fanout(body, phoneNumbers[1..], from)
  }

  /** `Promise.all` over the first `n` calls resolves. */
  function AllResolve(n: nat, resolves: nat -> bool): (b: bool)
    ensures b <==> forall i :: 0 <= i < n ==> resolves(i)
  {
    if n == 0 then true else resolves(n - 1) && AllResolve(n - 1, resolves)
  }

  /**
   * The send. `phoneNumbers` is `None` when the caller leaves the argument out:
   * then `phoneNumbers.map` throws inside the `try`, no message goes out and the
   * result is `false`.
   */
  function SendSmsNotification<T>(message: T, phoneNumbers: Option<seq<string>>, from: Option<string>,
                                  resolves: nat -> bool): (r: SendReport<T>)
    ensures phoneNumbers.None? ==> !r.ok && r.attempts == []
    ensures phoneNumbers.Some? ==>
              && |r.attempts| == |phoneNumbers.value|
              && forall i :: 0 <= i < |phoneNumbers.value| ==> r.attempts[i] == Message(message, phoneNumbers.value[i], from)
    ensures r.ok <==> phoneNumbers.Some? && forall i :: 0 <= i < |phoneNumbers.value| ==> resolves(i)
  {
    match phoneNumbers
    case None => SendReport(false, [])
    case Some(numbers) => SendReport(AllResolve(|numbers|, resolves), Fanout(message, numbers, from))
  }
}
