/** The table of workers: each chat has one, made when its first job arrives. */
module WorkerManager {
  import opened Wrappers

  /** Workers are numbered as they are made. */
  datatype Table = Table(workers: map<string, nat>, made: nat, closed: bool)

  const EMPTY := Table(map[], 0, false)

  datatype Step = Enqueue(chatID: string) | Close

  function WorkerOf(t: Table, chatID: string): Option<nat> {
    if t.closed then None else if chatID in t.workers then Some(t.workers[chatID]) else Some(t.made)
  }

  function Next(t: Table, a: Step): Table {
    match a
    case Close => t.(closed := true)
    case Enqueue(c) => if t.closed || c in t.workers then t else Table(t.workers[c := t.made], t.made + 1, false)
  }

  function After(run: seq<Step>): Table {
    if run == [] then EMPTY else Next(After(run[..|run| - 1]), run[|run| - 1])
  }

  class Manager {
    var workers: map<string, nat>
    var made: nat
    var closed: bool

    function View(): Table
      reads this
    {
      Table(workers, made, closed)
    }

    constructor ()
      ensures View() == EMPTY
    {
      workers, made, closed := map[], 0, false;
    }

    /** None once the manager is closed. */
    method Worker(chatID: string) returns (w: Option<nat>)
      modifies this
      ensures View() == Next(old(View()), Enqueue(chatID)) && w == WorkerOf(old(View()), chatID)
      ensures if old(closed) then w == None && View() == old(View())
              else if chatID in old(workers) then w == Some(old(workers)[chatID]) && View() == old(View())
              else w == Some(old(made)) && workers == old(workers)[chatID := old(made)] && made == old(made) + 1
    {
      if closed {
        return None;
      }
      if chatID in workers {
        return Some(workers[chatID]);
      }
      workers := workers[chatID := made];
      made := made + 1;
      return Some(made - 1);
    }

    /** The workers to close, the first time only. */
    method Close() returns (toClose: set<nat>)
      modifies `closed
      ensures View() == Next(old(View()), Step.Close)
      ensures toClose == if old(closed) then {} else workers.Values
    {
      if closed {
        return {};
      }
      closed := true;
      return workers.Values;
    }
  }

  ghost predicate Distinct(t: Table) {
    && (forall c | c in t.workers :: t.workers[c] < t.made)
    && (forall c, d | c in t.workers && d in t.workers && c != d :: t.workers[c] != t.workers[d])
  }

  lemma {:induction false} WorkersAreDistinct(run: seq<Step>)
    ensures Distinct(After(run))
    decreases |run|
  {
    if run != [] {
      WorkersAreDistinct(run[..|run| - 1]);
    }
  }

  /** A worker once made stays its chat's worker. */
  lemma {:induction false} WorkersStay(run: seq<Step>, n: nat, chatID: string)
    requires n <= |run| && chatID in After(run[..n]).workers
    ensures chatID in After(run).workers && After(run).workers[chatID] == After(run[..n]).workers[chatID]
    decreases |run|
  {
    if n == |run| {
      assert run[..n] == run;
    } else {
      assert run[..|run| - 1][..n] == run[..n];
      WorkersStay(run[..|run| - 1], n, chatID);
    }
  }

  /** Two jobs that get a worker at all get the same one exactly when they are of the same chat. */
  lemma SameWorkerIffSameChat(run: seq<Step>, i: nat, j: nat)
    requires i < j < |run| && run[i].Enqueue? && run[j].Enqueue?
    requires WorkerOf(After(run[..i]), run[i].chatID).Some? && WorkerOf(After(run[..j]), run[j].chatID).Some?
    ensures WorkerOf(After(run[..i]), run[i].chatID) == WorkerOf(After(run[..j]), run[j].chatID)
            <==> run[i].chatID == run[j].chatID
  {
    var c, d := run[i].chatID, run[j].chatID;
    assert run[..i + 1][..i] == run[..i];
    assert run[..j][..i + 1] == run[..i + 1];
    WorkersStay(run[..j], i + 1, c);
    WorkersAreDistinct(run[..j]);
  }
}
