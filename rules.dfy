/** The shape of a required-field rule shared by the invoice forms (an error
    message, or none), and the way `validateForm` runs such rules one after
    another, recording the message of each one that fails. */
module Rules {
  import opened Wrappers
  import opened Text

  /** A rule that records `message` exactly when `failed`. */
  function Check(failed: bool, message: string): (r: Option<string>)
    ensures r.Some? <==> failed
    ensures r.Some? ==> r.value == message
  {
    if failed then Some(message) else None
  }

  /** A required text field, checked after trimming (`!v.trim()`): the message
      exactly when the field is empty or white space only. */
  function RequiredCheck(v: string, required: string): (r: Option<string>)
    ensures r.Some? <==> AllSpace(v)
    ensures r.Some? ==> r.value == required
  {
    if Trim(v) == [] then Some(required) else None
  }

  /** A required field, checked without trimming (`!v`): only the empty text
      fails. */
  function PresentCheck(v: string, required: string): (r: Option<string>)
    ensures r.Some? <==> |v| == 0
    ensures r.Some? ==> r.value == required
  {
    if v == "" then Some(required) else None
  }

  /** The messages recorded once the rules of the first `n` keys of `order`
      have run: a key is present exactly when its rule has run and gives a
      message, with that message. */
  function Recorded<K(!new)>(check: K -> Option<string>, order: seq<K>, n: nat): (r: map<K, string>)
    requires n <= |order|
    ensures forall k :: k in r <==> k in order[..n] && check(k).Some?
    ensures forall k :: k in r ==> r[k] == check(k).value
  {
    map k | k in order[..n] && check(k).Some? :: check(k).value
  }

  /** Once every rule has run, a key is present exactly when it is one of
      `order` and its rule gives a message. */
  lemma RecordedAll<K(!new)>(check: K -> Option<string>, order: seq<K>)
    ensures forall k :: k in Recorded(check, order, |order|) <==> k in order && check(k).Some?
  {
    assert order[..|order|] == order;
  }

  /** Running the next rule adds its message, if any, to those recorded. */
  lemma RecordStep<K(!new)>(check: K -> Option<string>, order: seq<K>, n: nat)
    requires n < |order|
    ensures PutSome(Recorded(check, order, n), order[n], check(order[n])) == Recorded(check, order, n + 1)
  {
    assert order[..n + 1] == order[..n] + [order[n]];
  }

  /** One rule of a form's `validateForm`, the one at position `n`: when it
      fails its message is recorded and `isValid` is cleared; otherwise
      nothing changes. */
  method ApplyRule<K(!new)>(check: K -> Option<string>, order: seq<K>, n: nat, next: nat,
                            fields: map<K, string>, isValid: bool)
    returns (fields': map<K, string>, isValid': bool)
    requires n < |order| && next == n + 1
    requires fields == Recorded(check, order, n)
    requires isValid <==> fields == map[]
    ensures fields' == Recorded(check, order, next)
    ensures isValid' <==> fields' == map[]
  {
    fields', isValid' := fields, isValid;
    var message := check(order[n]);
    if message.Some? {
      fields' := fields[order[n] := message.value];
      isValid' := false;
    }
    RecordStep(check, order, n);
  }
}
