/**
 Failed writes: the first of each kind is logged, repeats collapse into a count that is logged at most
 once a minute. A kind is a table with an exception type and an SQL state.
 */
module WriteFailures {
  import opened Options
  import opened Recency

  const FAILURE_KINDS: nat := 50
  const SUMMARY_INTERVAL := 60.0

  type Kind = string

  datatype Tally = Tally(suppressed: nat, loggedAt: real)

  /** A log line and the number of failures it tells of. */
  datatype Line = Line(kind: Kind, count: nat, at: real)

  /** The tallies kept, the log, and the failures whose count was evicted before it was logged. */
  datatype State = State(tallies: Dict<Kind, Tally>, lines: seq<Line>, lost: multiset<Kind>)

  datatype Failure = Failure(kind: Kind, now: real)

  /** The kind whose tally a new one pushes out, with what it had suppressed. */
  function Evicted(tallies: Dict<Kind, Tally>): multiset<Kind> {
    if |tallies.order| < FAILURE_KINDS || tallies.order[0] !in tallies.vals then multiset{}
    else multiset{}[tallies.order[0] := tallies.vals[tallies.order[0]].suppressed]
  }

  function AfterFailure(s: State, f: Failure): State {
    if f.kind !in s.tallies.vals then
      State(SetItem(s.tallies, FAILURE_KINDS, f.kind, Tally(0, f.now)), s.lines + [Line(f.kind, 1, f.now)],
            s.lost + Evicted(s.tallies))
    else
      var tally := s.tallies.vals[f.kind];
      if f.now - tally.loggedAt < SUMMARY_INTERVAL then
        s.(tallies := s.tallies.(vals := s.tallies.vals[f.kind := Tally(tally.suppressed + 1, tally.loggedAt)]))
      else
        State(SetItem(s.tallies, FAILURE_KINDS, f.kind, Tally(0, f.now)),
              s.lines + [Line(f.kind, tally.suppressed + 1, f.now)], s.lost)
  }

  function Run(fs: seq<Failure>): State {
    if fs == [] then State(Empty(), [], multiset{}) else AfterFailure(Run(fs[..|fs| - 1]), fs[|fs| - 1])
  }

  // ---------------------------------------------------------------------------------------------
  // Every failure is accounted for
  // ---------------------------------------------------------------------------------------------

  function Failures(fs: seq<Failure>, k: Kind): nat {
    if fs == [] then 0 else Failures(fs[..|fs| - 1], k) + (if fs[|fs| - 1].kind == k then 1 else 0)
  }

  function Logged(lines: seq<Line>, k: Kind): nat {
    if lines == [] then 0
    else Logged(lines[..|lines| - 1], k) + (if lines[|lines| - 1].kind == k then lines[|lines| - 1].count else 0)
  }

  function Pending(tallies: Dict<Kind, Tally>, k: Kind): nat {
    if k in tallies.vals then tallies.vals[k].suppressed else 0
  }

  /** The failures of a kind that were logged, are still counted, or were lost with an evicted tally. */
  function Accounted(s: State, k: Kind): nat {
    Logged(s.lines, k) + Pending(s.tallies, k) + s.lost[k]
  }

  ghost predicate Kept(tallies: Dict<Kind, Tally>) {
    WellFormed(tallies) && |tallies.order| <= FAILURE_KINDS
  }

  lemma {:induction false} StepKept(s: State, f: Failure)
    requires Kept(s.tallies)
    ensures Kept(AfterFailure(s, f).tallies)
  {
    SetItemValid(s.tallies, FAILURE_KINDS, f.kind, Tally(0, f.now));
  }

  lemma {:induction false} StepAccounted(s: State, f: Failure, k: Kind)
    requires Kept(s.tallies)
    ensures Accounted(AfterFailure(s, f), k) == Accounted(s, k) + (if f.kind == k then 1 else 0)
  {
  }

  /** Over any run, each failure of a kind is told of in one log line, still counted, or lost with an evicted tally. */
  lemma {:induction false} EveryFailureIsAccounted(fs: seq<Failure>, k: Kind)
    ensures Kept(Run(fs).tallies)
    ensures Failures(fs, k) == Accounted(Run(fs), k)
  {
    if fs != [] {
      EveryFailureIsAccounted(fs[..|fs| - 1], k);
      StepKept(Run(fs[..|fs| - 1]), fs[|fs| - 1]);
      StepAccounted(Run(fs[..|fs| - 1]), fs[|fs| - 1], k);
    }
  }

  function KindsOf(fs: seq<Failure>): set<Kind> {
    set f | f in fs :: f.kind
  }

  // ---------------------------------------------------------------------------------------------
  // Within the cache's size
  // ---------------------------------------------------------------------------------------------

  /** Each tally was last logged when its kind's last line was written. */
  ghost predicate LastLines(s: State) {
    forall i :: 0 <= i < |s.lines| ==> LastLine(s.tallies.vals, s.lines[i])
  }

  ghost predicate LastLine(tallies: map<Kind, Tally>, l: Line) {
    l.kind in tallies && (tallies[l.kind].loggedAt == l.at || tallies[l.kind].loggedAt - l.at >= SUMMARY_INTERVAL)
  }

  ghost predicate Spaced(lines: seq<Line>) {
    forall i, j :: 0 <= i < j < |lines| && lines[i].kind == lines[j].kind
        ==> lines[j].at - lines[i].at >= 60.0
  }

  lemma {:induction false} StepSpaced(s: State, f: Failure)
    requires Kept(s.tallies) && LastLines(s) && Spaced(s.lines)
    requires f.kind in s.tallies.vals || |s.tallies.order| < FAILURE_KINDS
    ensures LastLines(AfterFailure(s, f)) && Spaced(AfterFailure(s, f).lines)
    ensures AfterFailure(s, f).lost == s.lost
    ensures AfterFailure(s, f).tallies.vals.Keys == s.tallies.vals.Keys + {f.kind}
  {
  }

  /** With no more kinds of failure than the cache holds, nothing is lost and a kind's lines are a minute apart. */
  lemma {:induction false} FewKindsLoseNothing(fs: seq<Failure>)
    requires |KindsOf(fs)| <= 50
    ensures Run(fs).lost == multiset{} && Spaced(Run(fs).lines)
    ensures Kept(Run(fs).tallies) && LastLines(Run(fs)) && Run(fs).tallies.vals.Keys == KindsOf(fs)
  {
    if fs != [] {
      var n := |fs| - 1;
      var s := Run(fs[..n]);
      assert fs == fs[..n] + [fs[n]];
      assert KindsOf(fs) == KindsOf(fs[..n]) + {fs[n].kind};
      assert KindsOf(fs) == KindsOf(fs[..n]) + (KindsOf(fs) - KindsOf(fs[..n]));
      FewKindsLoseNothing(fs[..n]);
      MembersCount(s.tallies.order);
      StepKept(s, fs[n]);
      StepSpaced(s, fs[n]);
    }
  }

  // ---------------------------------------------------------------------------------------------
  // When a failure is logged
  // ---------------------------------------------------------------------------------------------

  /** A minute or more has passed since every line of the failure's kind, if there is one. */
  ghost predicate IsDue(lines: seq<Line>, f: Failure) {
    forall i :: 0 <= i < |lines| && lines[i].kind == f.kind ==> f.now - lines[i].at >= 60.0
  }

  ghost predicate HasLine(lines: seq<Line>, k: Kind, at: real) {
    exists i :: 0 <= i < |lines| && lines[i].kind == k && lines[i].at == at
  }

  ghost predicate HasLines(s: State) {
    forall k :: k in s.tallies.vals ==> HasLine(s.lines, k, s.tallies.vals[k].loggedAt)
  }

  lemma {:induction false} MoreLines(lines: seq<Line>, l: Line)
    ensures HasLine(lines + [l], l.kind, l.at)
    ensures forall k, at :: HasLine(lines, k, at) ==> HasLine(lines + [l], k, at)
  {
    assert (lines + [l])[|lines|] == l;
    forall k, at | HasLine(lines, k, at)
      ensures HasLine(lines + [l], k, at)
    {
      var i :| 0 <= i < |lines| && lines[i].kind == k && lines[i].at == at;
      assert (lines + [l])[i] == lines[i];
    }
  }

  lemma {:induction false} StepHasLines(s: State, f: Failure)
    requires HasLines(s)
    ensures HasLines(AfterFailure(s, f))
  {
    var s' := AfterFailure(s, f);
    if |s'.lines| > |s.lines| {
      MoreLines(s.lines, s'.lines[|s.lines|]);
    }
    forall k | k in s'.tallies.vals
      ensures HasLine(s'.lines, k, s'.tallies.vals[k].loggedAt)
    {
      assert k != f.kind ==> k in s.tallies.vals && HasLine(s.lines, k, s.tallies.vals[k].loggedAt);
    }
  }

  lemma {:induction false} RunHasLines(fs: seq<Failure>)
    ensures HasLines(Run(fs)) && Run(fs).tallies.vals.Keys <= KindsOf(fs)
  {
    if fs != [] {
      var n := |fs| - 1;
      RunHasLines(fs[..n]);
      StepHasLines(Run(fs[..n]), fs[n]);
      assert fs[n] in fs && forall f :: f in fs[..n] ==> f in fs;
    }
  }

  lemma {:induction false} DueByTally(s: State, f: Failure)
    requires LastLines(s) && HasLines(s)
    ensures IsDue(s.lines, f)
       <==> (f.kind in s.tallies.vals ==> f.now - s.tallies.vals[f.kind].loggedAt >= 60.0)
  {
    if f.kind in s.tallies.vals {
      assert HasLine(s.lines, f.kind, s.tallies.vals[f.kind].loggedAt);
    } else {
      assert forall i :: 0 <= i < |s.lines| ==> LastLine(s.tallies.vals, s.lines[i]);
    }
  }

  lemma {:induction false} LogsWhenDue(s: State, f: Failure, earlier: nat) returns (count: nat)
    requires LastLines(s) && HasLines(s) && s.lost == multiset{} && earlier == Accounted(s, f.kind)
    ensures AfterFailure(s, f).lines
         == if IsDue(s.lines, f) then s.lines + [Line(f.kind, count, f.now)] else s.lines
    ensures Logged(s.lines, f.kind) + count == earlier + 1
  {
    DueByTally(s, f);
    count := Pending(s.tallies, f.kind) + 1;
  }

  lemma {:induction false} KindsBefore(fs: seq<Failure>, f: Failure)
    ensures KindsOf(fs + [f]) == KindsOf(fs) + {f.kind}
    ensures |KindsOf(fs)| <= |KindsOf(fs + [f])|
  {
    assert (fs + [f])[|fs|] == f;
    assert forall g :: g in fs ==> g in fs + [f];
    SubsetCount(KindsOf(fs), KindsOf(fs + [f]));
  }

  lemma {:induction false} OneMoreFailure(fs: seq<Failure>, f: Failure)
    ensures Run(fs + [f]) == AfterFailure(Run(fs), f) && Failures(fs + [f], f.kind) == Failures(fs, f.kind) + 1
  {
    assert (fs + [f])[..|fs|] == fs;
  }

  /**
   With no more kinds of failure than the cache holds: a failure is logged at once exactly when its kind has no line
   of the minute before, and the line counts the failures of its kind that no line has told of.
   */
  lemma {:induction false} LoggedExactlyWhenDue(fs: seq<Failure>, f: Failure) returns (count: nat)
    requires |KindsOf(fs + [f])| <= 50
    ensures Run(fs + [f]).lines == if IsDue(Run(fs).lines, f) then Run(fs).lines + [Line(f.kind, count, f.now)]
                                   else Run(fs).lines
    ensures Logged(Run(fs).lines, f.kind) + count == Failures(fs + [f], f.kind)
  {
    KindsBefore(fs, f);
    FewKindsLoseNothing(fs);
    EveryFailureIsAccounted(fs, f.kind);
    RunHasLines(fs);
    count := LogsWhenDue(Run(fs), f, Failures(fs, f.kind));
    OneMoreFailure(fs, f);
  }

  /** However many kinds there are, the first failure of one is logged at once. */
  lemma {:induction false} FirstOfItsKindIsLogged(fs: seq<Failure>, f: Failure)
    requires f.kind !in KindsOf(fs)
    ensures Run(fs + [f]).lines == Run(fs).lines + [Line(f.kind, 1, f.now)]
  {
    assert (fs + [f])[..|fs|] == fs;
    RunHasLines(fs);
  }

  // ---------------------------------------------------------------------------------------------
  // The repository
  // ---------------------------------------------------------------------------------------------

  class RepositoryBase {
    var loggedFailures: Dict<Kind, Tally>
    var lines: seq<Line>
    ghost var lost: multiset<Kind>

    ghost function Contents(): State
      reads this
    {
      State(loggedFailures, lines, lost)
    }

    constructor ()
      ensures Contents() == Run([])
    {
      loggedFailures, lines, lost := Empty(), [], multiset{};
    }

    method LogWriteFailure(kind: Kind, now: real)
      modifies this
      ensures Contents() == AfterFailure(old(Contents()), Failure(kind, now))
    {
      var state := Lookup(loggedFailures.vals, kind);
      if state.None? {
        lost := lost + Evicted(loggedFailures);
        loggedFailures := SetItem(loggedFailures, FAILURE_KINDS, kind, Tally(0, now));
        lines := lines + [Line(kind, 1, now)];
        return;
      }
      var tally := state.value.(suppressed := state.value.suppressed + 1);
      loggedFailures := loggedFailures.(vals := loggedFailures.vals[kind := tally]);
      if now - tally.loggedAt < SUMMARY_INTERVAL {
        return;
      }
      lines := lines + [Line(kind, tally.suppressed, now)];
      loggedFailures := SetItem(loggedFailures, FAILURE_KINDS, kind, Tally(0, now));
    }
  }
}
