/** Recursive cancellation through the map of child runs, which may be cyclic and may name runs that do not exist. */
module CancelTree {
  import opened Common
  import opened RunRows

  type Rows = map<string, Row>
  type Children = map<string, seq<string>>

  predicate Live(rows: Rows, id: string) { id in rows && !Terminal(rows[id].status) }

  function LiveRuns(rows: Rows): set<string> { set id | id in rows && !Terminal(rows[id].status) }

  function Canceled(row: Row): Row { row.(status := CANCELED, worker := None, lease := None) }

  function ChildrenOf(children: Children, id: string): seq<string> {
    if id in children then children[id] else []
  }

  /** A chain of parent and child on which every run is live. */
  ghost predicate LivePath(rows: Rows, children: Children, path: seq<string>) {
    && path != []
    && (forall i :: 0 <= i < |path| ==> Live(rows, path[i]))
    && (forall i :: 0 <= i < |path| - 1 ==> path[i + 1] in ChildrenOf(children, path[i]))
  }

  ghost predicate Reaches(rows: Rows, children: Children, from: string, to: string) {
    exists path :: LivePath(rows, children, path) && path[0] == from && path[|path| - 1] == to
  }

  /** `now` is `was` with exactly the runs in `done` canceled. */
  ghost predicate CanceledExactly(was: Rows, now: Rows, done: set<string>) {
    && now.Keys == was.Keys
    && (forall r :: r in was ==> now[r] == if r in done then Canceled(was[r]) else was[r])
  }

  /** Every live child of a run in `done` is in `done`, but for the children of `id` from position `i` on. */
  ghost predicate ClosedBut(was: Rows, children: Children, done: set<string>, id: string, i: nat) {
    forall d, k ::
      d in done && 0 <= k < |ChildrenOf(children, d)| && Live(was, ChildrenOf(children, d)[k]) && (d == id ==> k < i)
      ==> ChildrenOf(children, d)[k] in done
  }

  /** A closed set holds whatever its members reach. */
  lemma {:induction false} ClosedHoldsReach(
      was: Rows, children: Children, done: set<string>, id: string, path: seq<string>)
    requires ClosedBut(was, children, done, id, |ChildrenOf(children, id)|)
    requires LivePath(was, children, path) && path[0] in done
    ensures path[|path| - 1] in done
    decreases |path|
  {
    if |path| > 1 {
      var front := path[..|path| - 1];
      ClosedHoldsReach(was, children, done, id, front);
      var d := path[|path| - 2];
      assert front[|front| - 1] == d && path[|path| - 2 + 1] in ChildrenOf(children, d);
      var k :| 0 <= k < |ChildrenOf(children, d)| && ChildrenOf(children, d)[k] == path[|path| - 1];
    }
  }

  /** What a child reaches when fewer runs are live, its parent reached at the start. */
  lemma ReachFromParent(was: Rows, mid: Rows, children: Children, id: string, child: string, to: string)
    requires Live(was, id) && child in ChildrenOf(children, id) && Reaches(mid, children, child, to)
    requires forall r :: Live(mid, r) ==> Live(was, r)
    ensures Reaches(was, children, id, to)
  {
    var path :| LivePath(mid, children, path) && path[0] == child && path[|path| - 1] == to;
    var longer := [id] + path;
    assert forall i :: 0 < i < |longer| ==> longer[i] == path[i - 1];
    forall i | 0 <= i < |longer| - 1 ensures longer[i + 1] in ChildrenOf(children, longer[i]) {
      if i > 0 { assert path[i - 1 + 1] in ChildrenOf(children, path[i - 1]); }
    }
    assert LivePath(was, children, longer);
  }

  lemma ReachStep(rows: Rows, children: Children, from: string, d: string, to: string)
    requires Reaches(rows, children, from, d) && to in ChildrenOf(children, d) && Live(rows, to)
    ensures Reaches(rows, children, from, to)
  {
    var path :| LivePath(rows, children, path) && path[0] == from && path[|path| - 1] == d;
    var longer := path + [to];
    forall i | 0 <= i < |longer| - 1 ensures longer[i + 1] in ChildrenOf(children, longer[i]) {
      if i < |path| - 1 { assert path[i + 1] in ChildrenOf(children, path[i]); }
    }
    assert LivePath(rows, children, longer);
  }

  lemma ReachesItself(rows: Rows, children: Children, id: string)
    requires Live(rows, id)
    ensures Reaches(rows, children, id, id)
  {
    assert LivePath(rows, children, [id]);
  }

  /** The runs a recursive call canceled join the set: it stays closed, one child further. */
  lemma ChildIsDone(
      was: Rows, mid: Rows, children: Children, done: set<string>, id: string, i: nat, reached: set<string>)
    requires i < |ChildrenOf(children, id)| && CanceledExactly(was, mid, done) && ClosedBut(was, children, done, id, i)
    requires forall r :: r in reached <==> Reaches(mid, children, ChildrenOf(children, id)[i], r)
    requires id in done
    ensures ClosedBut(was, children, done + reached, id, i + 1)
  {
    var child := ChildrenOf(children, id)[i];
    forall d, k | && d in done + reached && 0 <= k < |ChildrenOf(children, d)|
                  && Live(was, ChildrenOf(children, d)[k]) && (d == id ==> k < i + 1)
      ensures ChildrenOf(children, d)[k] in done + reached
    {
      var c := ChildrenOf(children, d)[k];
      if c !in done {
        assert Live(mid, c);
        if d in reached { ReachStep(mid, children, child, d, c); }
        else if d == id && k == i { ReachesItself(mid, children, c); }
      }
    }
  }

  lemma CancelCompose(was: Rows, mid: Rows, now: Rows, done: set<string>, reached: set<string>)
    requires CanceledExactly(was, mid, done) && CanceledExactly(mid, now, reached)
    ensures CanceledExactly(was, now, done + reached)
  {
    forall r | r in was ensures now[r] == if r in done + reached then Canceled(was[r]) else was[r] { assert r in mid; }
  }

  ghost function ReachedFrom(rows: Rows, children: Children, id: string): set<string> {
    set r | r in rows && Reaches(rows, children, id, r)
  }

  lemma ReachedIsLive(rows: Rows, children: Children, from: string, to: string)
    requires Reaches(rows, children, from, to)
    ensures Live(rows, to) && Live(rows, from)
  {
  }

  lemma UnreachedUnlessLive(rows: Rows, children: Children, id: string)
    requires !Live(rows, id)
    ensures ReachedFrom(rows, children, id) == {} && CanceledExactly(rows, rows, {})
  {
    if r :| r in ReachedFrom(rows, children, id) { ReachedIsLive(rows, children, id, r); }
  }

  /** Loop invariant of `cancel`: `id` and what its first `i` children reached are canceled, and nothing else. */
  ghost predicate Progress(was: Rows, now: Rows, children: Children, id: string, i: nat, done: set<string>) {
    && Live(was, id) && id in done && done <= ReachedFrom(was, children, id)
    && CanceledExactly(was, now, done)
    && ClosedBut(was, children, done, id, i)
  }

  lemma ProgressBegins(was: Rows, children: Children, id: string)
    requires Live(was, id)
    ensures Progress(was, was[id := Canceled(was[id])], children, id, 0, {id})
  {
    ReachesItself(was, children, id);
  }

  lemma ProgressAdvances(was: Rows, mid: Rows, now: Rows, children: Children, id: string, i: nat, done: set<string>)
    requires Progress(was, mid, children, id, i, done) && i < |ChildrenOf(children, id)|
    requires CanceledExactly(mid, now, ReachedFrom(mid, children, ChildrenOf(children, id)[i]))
    ensures Progress(was, now, children, id, i + 1, done + ReachedFrom(mid, children, ChildrenOf(children, id)[i]))
  {
    hide LivePath;
    var child := ChildrenOf(children, id)[i];
    var reached := ReachedFrom(mid, children, child);
    Fewer(was, mid, done, id);
    CancelCompose(was, mid, now, done, reached);
    forall r ensures r in reached <==> Reaches(mid, children, child, r) {
      if Reaches(mid, children, child, r) { ReachedIsLive(mid, children, child, r); }
    }
    ChildIsDone(was, mid, children, done, id, i, reached);
    forall r | r in reached ensures r in ReachedFrom(was, children, id) {
      ReachFromParent(was, mid, children, id, child, r);
    }
  }

  lemma ProgressCompletes(was: Rows, now: Rows, children: Children, id: string, done: set<string>)
    requires Progress(was, now, children, id, |ChildrenOf(children, id)|, done)
    ensures done == ReachedFrom(was, children, id) && CanceledExactly(was, now, done)
    ensures id in was && id in now && now[id] == Canceled(was[id])
  {
    forall r | r in ReachedFrom(was, children, id) ensures r in done {
      var path :| LivePath(was, children, path) && path[0] == id && path[|path| - 1] == r;
      ClosedHoldsReach(was, children, done, id, path);
    }
  }

  lemma Fewer(was: Rows, mid: Rows, done: set<string>, id: string)
    requires CanceledExactly(was, mid, done) && id in done && Live(was, id)
    ensures |LiveRuns(mid)| < |LiveRuns(was)|
    ensures forall r :: Live(mid, r) ==> Live(was, r)
  {
    forall r | Live(mid, r) ensures Live(was, r) { assert r in was; }
    assert id in LiveRuns(was) && id !in LiveRuns(mid);
    SubsetSize(LiveRuns(mid), LiveRuns(was) - {id});
  }

  lemma ProgressDescends(was: Rows, mid: Rows, children: Children, id: string, i: nat, done: set<string>)
    requires Progress(was, mid, children, id, i, done)
    ensures |LiveRuns(mid)| < |LiveRuns(was)|
  {
    Fewer(was, mid, done, id);
  }

  /** The cancellation events that exist for `done` are set as well. */
  function WithSignals(signaled: set<string>, events: set<string>, done: set<string>): set<string> {
    signaled + (events * done)
  }

  lemma SignalOne(signaled: set<string>, events: set<string>, id: string)
    ensures WithSignals(signaled, events, {id}) == if id in events then signaled + {id} else signaled
  {
  }

  lemma SignalsCompose(signaled: set<string>, events: set<string>, a: set<string>, b: set<string>)
    ensures WithSignals(WithSignals(signaled, events, a), events, b) == WithSignals(signaled, events, a + b)
    ensures WithSignals(signaled, events, {}) == signaled
  {
  }

  class RunManager {
    var rows: Rows
    var children: Children
    var events: set<string>       // runs with a cancellation event in this process
    var signaled: set<string>     // those whose event is set

    /** `None`: the run does not exist, which a recursive call swallows. */
    method Cancel(id: string) returns (run: Option<Row>)
      modifies this`rows, this`signaled
      ensures CanceledExactly(old(rows), rows, ReachedFrom(old(rows), children, id))
      ensures signaled == WithSignals(old(signaled), events, ReachedFrom(old(rows), children, id))
      ensures run.Some? <==> id in old(rows)
      ensures run.Some? ==> id in rows && run.value == rows[id] && Terminal(run.value.status)
      decreases |LiveRuns(rows)|
    {
      hide ReachedFrom; hide LiveRuns; hide Progress; hide CanceledExactly; hide ChildrenOf; hide WithSignals;
      ghost var was := rows;
      if id !in rows {
        UnreachedUnlessLive(was, children, id);
        SignalsCompose(signaled, events, {}, {});
        return None;
      }
      if Terminal(rows[id].status) {
        UnreachedUnlessLive(was, children, id);
        SignalsCompose(signaled, events, {}, {});
        return Some(rows[id]);
      }
      rows := rows[id := Canceled(rows[id])];
      SignalOne(signaled, events, id);
      if id in events { signaled := signaled + {id}; }
      ghost var done := {id};
      ProgressBegins(was, children, id);
      var list, i := ChildrenOf(children, id), 0;
      while i < |list|
        invariant 0 <= i <= |list|
        invariant Progress(was, rows, children, id, i, done)
        invariant signaled == WithSignals(old(signaled), events, done)
      {
        ghost var mid := rows;
        ProgressDescends(was, mid, children, id, i, done);
        var _ := Cancel(list[i]);
        ProgressAdvances(was, mid, rows, children, id, i, done);
        SignalsCompose(old(signaled), events, done, ReachedFrom(mid, children, list[i]));
        done := done + ReachedFrom(mid, children, list[i]);
        i := i + 1;
      }
      ProgressCompletes(was, rows, children, id, done);
      return Some(rows[id]);
    }
  }

  /** Nothing live is left below a canceled run: canceling it again, or any run it reached, changes nothing. */
  lemma CancelIsFinal(was: Rows, now: Rows, children: Children, id: string, below: string)
    requires CanceledExactly(was, now, ReachedFrom(was, children, id))
    requires below == id || Reaches(was, children, id, below)
    ensures ReachedFrom(now, children, below) == {}
  {
    if below in was {
      if below == id && Live(was, id) { ReachesItself(was, children, id); }
      assert Live(was, below) ==> below in ReachedFrom(was, children, id);
      assert now[below] == Canceled(was[below]) || now[below] == was[below];
    }
    UnreachedUnlessLive(now, children, below);
  }

  /**
   * What that is, run by run: the run itself is canceled and loses its worker and lease unless it is finished; so is
   * every unfinished child of a run that was; a finished run is left alone.
   */
  lemma CancelMeans(was: Rows, now: Rows, children: Children, id: string, r: string, child: string)
    requires CanceledExactly(was, now, ReachedFrom(was, children, id)) && r in was
    ensures r in now
    ensures var s := was[r].status;
            s == SUCCEEDED || s == FAILED || s == TIMEOUT || s == CANCELED ==> now[r] == was[r]
    ensures var s := was[r].status;
            r == id && s != SUCCEEDED && s != FAILED && s != TIMEOUT && s != CANCELED ==>
              now[r] == was[r].(status := CANCELED, worker := None, lease := None)
    ensures now[r] != was[r] && child in ChildrenOf(children, r) && child in was ==>
              var s := was[child].status;
              s != SUCCEEDED && s != FAILED && s != TIMEOUT && s != CANCELED ==>
                now[child] == was[child].(status := CANCELED, worker := None, lease := None)
  {
    hide LivePath;
    if Live(was, id) { ReachesItself(was, children, id); }
    if Reaches(was, children, id, r) {
      ReachedIsLive(was, children, id, r);
      if child in ChildrenOf(children, r) && Live(was, child) { ReachStep(was, children, id, r, child); }
    }
  }
}
