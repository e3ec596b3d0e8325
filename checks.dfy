/** The validation pattern the framework uses throughout: run every check,
    collect the message of each one that fails, in order, and report
    `{ valid, errors }` where `errors` is present only when something failed. */
module Checks {
  import opened Wrappers

  /** One check: whether it passed, and the message pushed when it did not. */
  datatype Check = Check(ok: bool, msg: string)

  function FailedMessages(checks: seq<Check>): seq<string> {
    if checks == [] then []
    else MessageIfFailed(checks[0]) + FailedMessages(checks[1..])
  }

  predicate AllPass(checks: seq<Check>) {
    forall i :: 0 <= i < |checks| ==> checks[i].ok
  }

  lemma {:induction false} FailedMessagesEmptyIff(checks: seq<Check>)
    ensures FailedMessages(checks) == [] <==> AllPass(checks)
  {
    if checks != [] {
      FailedMessagesEmptyIff(checks[1..]);
      assert AllPass(checks) <==> checks[0].ok && AllPass(checks[1..]) by {
        if checks[0].ok && AllPass(checks[1..]) {
          forall i | 0 <= i < |checks| ensures checks[i].ok {
            if i > 0 { assert checks[i] == checks[1..][i - 1]; }
          }
        }
      }
    }
  }

  /** A failing check always contributes its message. */
  lemma {:induction false} FailedMessageIncluded(checks: seq<Check>, i: nat)
    requires i < |checks| && !checks[i].ok
    ensures checks[i].msg in FailedMessages(checks)
  {
    if i > 0 {
      FailedMessageIncluded(checks[1..], i - 1);
    }
  }

  /** Every reported message belongs to a failing check. */
  lemma {:induction false} FailedMessageSound(checks: seq<Check>, m: string)
    requires m in FailedMessages(checks)
    ensures exists i :: 0 <= i < |checks| && !checks[i].ok && checks[i].msg == m
  {
    if checks[0].ok || m != checks[0].msg {
      FailedMessageSound(checks[1..], m);
      var i :| 0 <= i < |checks[1..]| && !checks[1..][i].ok && checks[1..][i].msg == m;
      assert checks[i + 1] == checks[1..][i];
    }
  }

  lemma {:induction false} FailedMessagesAppend(a: seq<Check>, b: seq<Check>)
    ensures FailedMessages(a + b) == FailedMessages(a) + FailedMessages(b)
  {
    if a != [] {
      assert (a + b)[1..] == a[1..] + b;
      FailedMessagesAppend(a[1..], b);
    } else {
      assert a + b == b;
    }
  }

  function MessageIfFailed(c: Check): seq<string> {
    if c.ok then [] else [c.msg]
  }

  lemma FailedMessagesOfTwo(c: seq<Check>)
    requires |c| == 2
    ensures FailedMessages(c) == MessageIfFailed(c[0]) + MessageIfFailed(c[1])
  {
    assert c[1..][0] == c[1] && c[1..][1..] == [];
    assert FailedMessages(c[1..]) == MessageIfFailed(c[1]) + FailedMessages(c[1..][1..]);
  }

  lemma FailedMessagesOfThree(c: seq<Check>)
    requires |c| == 3
    ensures FailedMessages(c) == MessageIfFailed(c[0]) + MessageIfFailed(c[1]) + MessageIfFailed(c[2])
  {
    assert c[1..][0] == c[1] && c[1..][1..][0] == c[2] && c[1..][1..][1..] == [];
    assert FailedMessages(c[1..][1..]) == MessageIfFailed(c[2]) + FailedMessages(c[1..][1..][1..]);
  }

  lemma FailedMessagesOfFour(c: seq<Check>)
    requires |c| == 4
    ensures FailedMessages(c) == MessageIfFailed(c[0]) + MessageIfFailed(c[1]) + MessageIfFailed(c[2]) + MessageIfFailed(c[3])
  {
    assert c == c[..2] + c[2..];
    FailedMessagesAppend(c[..2], c[2..]);
    FailedMessagesOfTwo(c[..2]);
    FailedMessagesOfTwo(c[2..]);
  }

  /** `{ valid: errors.length === 0, errors: errors.length > 0 ? errors : undefined }` */
  datatype ValidationResult = ValidationResult(valid: bool, errors: Option<seq<string>>)

  function FromErrors(errors: seq<string>): (r: ValidationResult)
    ensures r.valid <==> errors == []
    ensures r.errors.Some? <==> !r.valid
    ensures r.errors.Some? ==> r.errors.value == errors
  {
    if errors == [] then ValidationResult(true, None) else ValidationResult(false, Some(errors))
  }
}
