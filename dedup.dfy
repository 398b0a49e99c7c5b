/**
 * The bookkeeping that `parse_issue` keeps across calls, stated on values:
 * `issues` is the set of advisory ids already seen and `results` the ids,
 * in order of first appearance, that were not declared as exceptions.
 * `Step` is one call, `Run` a sequence of calls.
 */
module Dedup {

  datatype State = State(issues: set<string>, results: seq<string>)

  /** The state before any advisory has been normalised. */
  const Initial: State := State({}, [])

  /** Set of the elements of a sequence. */
  function Elems(s: seq<string>): (e: set<string>)
    ensures forall x :: x in e <==> x in s
  {
    set x | x in s
  }

  /** The invariant that every call keeps. */
  ghost predicate Inv(exceptions: set<string>, st: State) {
    && (forall i, j :: 0 <= i < j < |st.results| ==> st.results[i] != st.results[j])
    && (forall i :: 0 <= i < |st.results| ==> st.results[i] in st.issues)
    && (forall i :: 0 <= i < |st.results| ==> st.results[i] !in exceptions)
  }

  /** The effect of one `parse_issue` call with advisory id `id`. */
  function Step(exceptions: set<string>, st: State, id: string): (st': State)
    ensures id in st.issues ==> st' == st
    ensures id !in st.issues ==> st'.issues == st.issues + {id}
    ensures id !in st.issues ==> (st'.results == st.results + [id] <==> id !in exceptions)
    ensures id !in st.issues && id in exceptions ==> st'.results == st.results
  {
    if id in st.issues then st
    else State(st.issues + {id}, if id in exceptions then st.results else st.results + [id])
  }

  /** The effect of calling `parse_issue` on each id of `ids`, in order. */
  function Run(exceptions: set<string>, st: State, ids: seq<string>): State
    decreases |ids|
  {
    if ids == [] then st
    else Step(exceptions, Run(exceptions, st, ids[..|ids| - 1]), ids[|ids| - 1])
  }

  /**
   * Reference definition: the ids of `ids` that are not in `seen`, each once,
   * in order of first appearance.
   */
  function Fresh(seen: set<string>, ids: seq<string>): seq<string>
    decreases |ids|
  {
    if ids == [] then []
    else
      var prefix, x := ids[..|ids| - 1], ids[|ids| - 1];
      if x in seen || x in prefix then Fresh(seen, prefix) else Fresh(seen, prefix) + [x]
  }

  /** Reference definition: the elements of `s` that are not exceptions, in order. */
  function NotExcepted(exceptions: set<string>, s: seq<string>): seq<string>
    decreases |s|
  {
    if s == [] then []
    else
      var prefix, x := s[..|s| - 1], s[|s| - 1];
      if x in exceptions then NotExcepted(exceptions, prefix) else NotExcepted(exceptions, prefix) + [x]
  }

  /**
   * One more id: the run over the first `i + 1` ids is one step past the run
   * over the first `i`, and `Fresh` grows by that id exactly when the run so
   * far had not seen it.
   */
  lemma StepExtendsRun(exceptions: set<string>, st: State, ids: seq<string>, i: nat)
    requires i < |ids|
    ensures Run(exceptions, st, ids[..i + 1]) == Step(exceptions, Run(exceptions, st, ids[..i]), ids[i])
    ensures Fresh(st.issues, ids[..i + 1])
         == if ids[i] in Run(exceptions, st, ids[..i]).issues then Fresh(st.issues, ids[..i])
            else Fresh(st.issues, ids[..i]) + [ids[i]]
  {
    assert ids[..i + 1][..i] == ids[..i];
    RunIssues(exceptions, st, ids[..i]);
  }

  lemma StepKeepsInv(exceptions: set<string>, st: State, id: string)
    requires Inv(exceptions, st)
    ensures Inv(exceptions, Step(exceptions, st, id))
  {
    if id !in st.issues && id !in exceptions {
      var r := st.results + [id];
      forall i, j | 0 <= i < j < |r| ensures r[i] != r[j] {
        if j == |st.results| {
          assert r[i] == st.results[i] && st.results[i] in st.issues;
        }
      }
    }
  }

  lemma {:induction false} RunKeepsInv(exceptions: set<string>, st: State, ids: seq<string>)
    requires Inv(exceptions, st)
    ensures Inv(exceptions, Run(exceptions, st, ids))
    decreases |ids|
  {
    if ids != [] {
      RunKeepsInv(exceptions, st, ids[..|ids| - 1]);
      StepKeepsInv(exceptions, Run(exceptions, st, ids[..|ids| - 1]), ids[|ids| - 1]);
    }
  }

  /** A run adds every id it is given to the seen set, and nothing else. */
  lemma {:induction false} RunIssues(exceptions: set<string>, st: State, ids: seq<string>)
    ensures Run(exceptions, st, ids).issues == st.issues + Elems(ids)
    decreases |ids|
  {
    if ids != [] {
      var prefix, x := ids[..|ids| - 1], ids[|ids| - 1];
      RunIssues(exceptions, st, prefix);
      assert ids == prefix + [x];
      assert Elems(ids) == Elems(prefix) + {x};
    }
  }

  /**
   * A run appends to the results exactly the ids it had not seen before and
   * that are not exceptions, each once, in order of first appearance.
   */
  lemma {:induction false} RunResults(exceptions: set<string>, st: State, ids: seq<string>)
    ensures Run(exceptions, st, ids).results
         == st.results + NotExcepted(exceptions, Fresh(st.issues, ids))
    decreases |ids|
  {
    if ids != [] {
      var prefix, x := ids[..|ids| - 1], ids[|ids| - 1];
      RunResults(exceptions, st, prefix);
      RunIssues(exceptions, st, prefix);
      var f := Fresh(st.issues, prefix);
      if !(x in st.issues || x in prefix) {
        assert (f + [x])[..|f|] == f;
      }
    }
  }

  /** Feeding a run only ids it has already seen changes nothing. */
  lemma {:induction false} RunOfSeenIsIdentity(exceptions: set<string>, st: State, ids: seq<string>)
    requires forall i :: 0 <= i < |ids| ==> ids[i] in st.issues
    ensures Run(exceptions, st, ids) == st
    decreases |ids|
  {
    if ids != [] {
      RunOfSeenIsIdentity(exceptions, st, ids[..|ids| - 1]);
    }
  }

  /** Normalising the same advisories a second time changes nothing. */
  lemma RunIdempotent(exceptions: set<string>, st: State, ids: seq<string>)
    ensures Run(exceptions, Run(exceptions, st, ids), ids) == Run(exceptions, st, ids)
  {
    RunIssues(exceptions, st, ids);
    RunOfSeenIsIdentity(exceptions, Run(exceptions, st, ids), ids);
  }

  /** The elements of `Fresh`: those of `ids` not already seen. */
  lemma {:induction false} FreshElems(seen: set<string>, ids: seq<string>)
    ensures forall x :: x in Fresh(seen, ids) <==> x in ids && x !in seen
    decreases |ids|
  {
    if ids != [] {
      var prefix := ids[..|ids| - 1];
      FreshElems(seen, prefix);
      assert ids == prefix + [ids[|ids| - 1]];
    }
  }

  /** Filtering out exceptions leaves nothing exactly when everything is an exception. */
  lemma {:induction false} NotExceptedEmptyIff(exceptions: set<string>, s: seq<string>)
    ensures NotExcepted(exceptions, s) == [] <==> forall x :: x in s ==> x in exceptions
    decreases |s|
  {
    if s != [] {
      var prefix := s[..|s| - 1];
      NotExceptedEmptyIff(exceptions, prefix);
      assert s == prefix + [s[|s| - 1]];
    }
  }

  /**
   * Starting from nothing seen, the results list stays empty exactly when
   * every id fed in is a declared exception.
   */
  lemma ResultsEmptyIffAllExcepted(exceptions: set<string>, ids: seq<string>)
    ensures Run(exceptions, Initial, ids).results == []
        <==> forall i :: 0 <= i < |ids| ==> ids[i] in exceptions
  {
    RunResults(exceptions, Initial, ids);
    FreshElems({}, ids);
    NotExceptedEmptyIff(exceptions, Fresh({}, ids));
  }
}
