/**
 Checking a packet's fields against a stream profile: the list of checks, the two
 strictness modes, and what each of them lets through.
 */
module ProfileCheck {

  datatype Mode = Strict | Lenient

  datatype Status = Accepted | WrongSubtype | OtherStream | Malformed | Mismatch

  // One field compared with the profile.  A legacy check rejects in both modes.
  datatype Check = Check(name: string, got: nat, want: nat, legacy: bool) {
    predicate Matches() {
      got == want
    }

    predicate Rejects(mode: Mode) {
      got != want && (legacy || mode.Strict?)
    }
  }

  // The disagreement a parse leaves behind, if any.
  datatype Bad = NoBad | Bad(name: string, got: nat, want: nat)

  datatype Finding = Finding(status: Status, bad: Bad)

  datatype Outcome<T> = Outcome(status: Status, bad: Bad, info: T)

  function BadOf(c: Check): Bad {
    Bad(c.name, c.got, c.want)
  }

  // The checks taken in order: the first rejecting one ends the parse.
  function Judged(checks: seq<Check>, mode: Mode, bad: Bad): Finding {
    if checks == [] then Finding(Accepted, bad)
    else if checks[0].Matches() then Judged(checks[1..], mode, bad)
    else if checks[0].Rejects(mode) then Finding(Mismatch, BadOf(checks[0]))
    else Judged(checks[1..], mode, BadOf(checks[0]))
  }

  // The out-parameter of a parse, filled in place.
  class Report<T> {
    var bad: Bad
    var info: T

    constructor (blank: T)
      ensures bad == NoBad && info == blank
    {
      bad := NoBad;
      info := blank;
    }

    function Answer(status: Status): Outcome<T>
      reads this
    {
      Outcome(status, bad, info)
    }

    method NoteMismatch(c: Check, mode: Mode) returns (status: Status)
      requires !c.Matches()
      modifies this`bad
      ensures bad == BadOf(c)
      ensures status == if c.Rejects(mode) then Mismatch else Accepted
    {
      bad := Bad(c.name, c.got, c.want);
      if c.legacy || mode.Strict? {
        return Mismatch;
      }
      return Accepted;
    }

    method CheckAll(checks: seq<Check>, mode: Mode) returns (status: Status)
      modifies this`bad
      ensures Finding(status, bad) == Judged(checks, mode, old(bad))
    {
      for i := 0 to |checks|
        invariant Judged(checks[i..], mode, bad) == Judged(checks, mode, old(bad))
      {
        if checks[i].got != checks[i].want {
          status := NoteMismatch(checks[i], mode);
          if status != Accepted {
            return;
          }
        }
      }
      status := Accepted;
    }
  }

  // Lists checked one after the other are one list.
  lemma {:induction false} JudgedInTurn(a: seq<Check>, b: seq<Check>, mode: Mode, bad: Bad)
    ensures var f := Judged(a, mode, bad);
            Judged(a + b, mode, bad) == if f.status.Accepted? then Judged(b, mode, f.bad) else f
  {
    if a == [] {
      assert a + b == b;
    } else {
      assert (a + b)[1..] == a[1..] + b;
      JudgedInTurn(a[1..], b, mode, if a[0].Matches() then bad else BadOf(a[0]));
    }
  }

  // A list is accepted exactly when none of its checks rejects.
  lemma {:induction false} AcceptedIff(checks: seq<Check>, mode: Mode, bad: Bad)
    ensures Judged(checks, mode, bad).status.Accepted? <==>
            forall i :: 0 <= i < |checks| ==> !checks[i].Rejects(mode)
  {
    if checks != [] {
      AcceptedIff(checks[1..], mode, if checks[0].Matches() then bad else BadOf(checks[0]));
      assert forall i :: 1 <= i < |checks| ==> checks[i] == checks[1..][i - 1];
      assert forall i :: 0 <= i < |checks| - 1 ==> checks[1..][i] == checks[i + 1];
    }
  }

  // A rejection names the first check that rejects.
  lemma {:induction false} FirstRejection(checks: seq<Check>, mode: Mode, bad: Bad) returns (k: nat)
    requires !Judged(checks, mode, bad).status.Accepted?
    ensures k < |checks| && checks[k].Rejects(mode)
    ensures forall i :: 0 <= i < k ==> !checks[i].Rejects(mode)
    ensures Judged(checks, mode, bad) == Finding(Mismatch, BadOf(checks[k]))
  {
    if checks[0].Rejects(mode) {
      k := 0;
    } else {
      var rest := FirstRejection(checks[1..], mode, if checks[0].Matches() then bad else BadOf(checks[0]));
      k := rest + 1;
      forall i | 0 <= i < k
        ensures !checks[i].Rejects(mode)
      {
        if i > 0 {
          assert checks[i] == checks[1..][i - 1];
        }
      }
    }
  }

  lemma {:induction false} AllMatching(checks: seq<Check>, mode: Mode, bad: Bad)
    requires forall i :: 0 <= i < |checks| ==> checks[i].Matches()
    ensures Judged(checks, mode, bad) == Finding(Accepted, bad)
  {
    if checks != [] {
      AllMatching(checks[1..], mode, bad);
    }
  }

  // An accepted list reports the last field that disagreed.
  lemma {:induction false} LastReported(checks: seq<Check>, mode: Mode, bad: Bad, k: nat)
    requires Judged(checks, mode, bad).status.Accepted?
    requires k < |checks| && !checks[k].Matches()
    requires forall i :: k < i < |checks| ==> checks[i].Matches()
    ensures Judged(checks, mode, bad).bad == BadOf(checks[k])
  {
    var next := if checks[0].Matches() then bad else BadOf(checks[0]);
    if k == 0 {
      AllMatching(checks[1..], mode, next);
    } else {
      LastReported(checks[1..], mode, next, k - 1);
    }
  }

  // Once something is reported it is only ever replaced by another disagreement.
  lemma {:induction false} NeverForgotten(checks: seq<Check>, mode: Mode, bad: Bad)
    requires bad.Bad?
    ensures Judged(checks, mode, bad).bad.Bad?
  {
    if checks != [] {
      NeverForgotten(checks[1..], mode, if checks[0].Matches() then bad else BadOf(checks[0]));
    }
  }

  // Lenient with nothing reported is the same as strict acceptance.
  lemma {:induction false} CleanIffStrict(checks: seq<Check>)
    ensures Judged(checks, Lenient, NoBad) == Finding(Accepted, NoBad) <==>
            Judged(checks, Strict, NoBad).status.Accepted?
    ensures Judged(checks, Strict, NoBad).status.Accepted? ==>
            Judged(checks, Strict, NoBad) == Finding(Accepted, NoBad)
  {
    if checks != [] {
      if checks[0].Matches() {
        CleanIffStrict(checks[1..]);
      } else {
        NeverForgotten(checks[1..], Lenient, BadOf(checks[0]));
      }
    }
  }
}
