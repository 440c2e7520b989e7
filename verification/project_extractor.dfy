/**
 * ProjectExtractor: hands the commits of a history, one per call and in
 * order, to an extraction handler.
 */
module Extraction {
  /** A commit of the history: the tracked project it belongs to and its time stamp. */
  datatype CommitItem<T> = CommitItem(track: T, timeStamp: int)

  /** The handler calls the first n commits produce, in order: (Track, TimeStamp) of each. */
  function HandlerCalls<T>(commits: seq<CommitItem<T>>, n: nat): (calls: seq<(T, int)>)
    requires n <= |commits|
    ensures |calls| == n
    ensures forall i :: 0 <= i < n ==> calls[i] == (commits[i].track, commits[i].timeStamp)
  {
    if n == 0 then [] else HandlerCalls(commits, n - 1) + [(commits[n - 1].track, commits[n - 1].timeStamp)]
  }

  /**
   * Every commit is handed over once: after k successful calls the handler
   * has seen exactly the first k commits, and the calls of a longer run
   * extend those of a shorter one.
   */
  lemma {:induction false} HandlerCallsPrefix<T>(commits: seq<CommitItem<T>>, m: nat, n: nat)
    requires m <= n <= |commits|
    ensures HandlerCalls(commits, n)[..m] == HandlerCalls(commits, m)
    decreases n - m
  {
    if m < n {
      HandlerCallsPrefix(commits, m, n - 1);
      assert HandlerCalls(commits, n)[..n - 1] == HandlerCalls(commits, n - 1);
    }
  }

  /**
   * How a PerformExtraction call ends: false (no commit left), true (the
   * handler returned) or the handler's exception passed on to the caller.
   */
  datatype Extracted = NoMore | Handed | HandlerThrew

  class ProjectExtractor<T> {
    const commits: seq<CommitItem<T>>
    var index: nat
    /** The calls to extractHandler that returned; the handler itself is not part of this model. */
    var handled: seq<(T, int)>

    ghost predicate Valid()
      reads this
    {
      index <= |commits| && handled == HandlerCalls(commits, index)
    }

    constructor (commits: seq<CommitItem<T>>)
      ensures Valid() && this.commits == commits && index == 0 && handled == []
    {
      this.commits := commits;
      index := 0;
      handled := [];
    }

    /**
     * PerformExtraction: false once every commit has been handed over;
     * otherwise hands the next commit's track and time stamp to the handler
     * and moves on.  `handlerThrows` is whether that handler call throws:
     * the exception then leaves the method before index++, so the next call
     * hands the same commit over again.
     */
    method PerformExtraction(handlerThrows: bool) returns (r: Extracted)
      requires Valid()
      modifies this
      ensures Valid()
      ensures r == NoMore <==> old(index) >= |commits|
      ensures r == HandlerThrew <==> old(index) < |commits| && handlerThrows
      ensures r == Handed ==> index == old(index) + 1 && handled == old(handled) + [(commits[old(index)].track, commits[old(index)].timeStamp)]
      ensures r != Handed ==> index == old(index) && handled == old(handled)
    {
      if index >= |commits| {
        return NoMore;
      }
      var commitItem := commits[index];
      if handlerThrows {
        return HandlerThrew;
      }
      handled := handled + [(commitItem.track, commitItem.timeStamp)];
      index := index + 1;
      return Handed;
    }
  }
}
