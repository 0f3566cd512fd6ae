/**
 * `MainViewController`: loads the trip cards from the store, and on every
 * emission of the card list writes the whole list back and commits.
 */
module MainScreen {
  import opened Wrappers
  import opened MainCards

  /** One `writeMainCard` per card, in list order. */
  function Writes(cards: seq<MainCard>): (r: seq<StoreCall>)
    ensures |r| == |cards|
    ensures forall i :: 0 <= i < |cards| ==> r[i] == StoreCall.WriteMainCard(cards[i])
  {
    seq(|cards|, i requires 0 <= i < |cards| => StoreCall.WriteMainCard(cards[i]))
  }

  /** The store calls one sync makes, and the error that ended it, if any. */
  datatype Sync = Sync(calls: seq<StoreCall>, error: Option<AppError>)

  /**
   * A sync of `cards` against a store whose next call is its `n`-th: write
   * each card and stop at the first write that throws; when none throws,
   * commit, and the commit's error (if any) ends the sync.
   */
  function SyncTrace(cards: seq<MainCard>, failure: nat -> Option<AppError>, n: nat): (r: Sync)
    ensures 1 <= |r.calls| <= |cards| + 1
    ensures r.calls[0] == (if cards == [] then StoreCall.SaveContext else StoreCall.WriteMainCard(cards[0]))
    decreases |cards|
  {
    if cards == [] then Sync([StoreCall.SaveContext], failure(n))
    else if failure(n).Some? then Sync([StoreCall.WriteMainCard(cards[0])], failure(n))
    else
      var rest := SyncTrace(cards[1..], failure, n + 1);
      Sync([StoreCall.WriteMainCard(cards[0])] + rest.calls, rest.error)
  }

  lemma WritesSnoc(cards: seq<MainCard>, i: nat)
    requires i < |cards|
    ensures Writes(cards[..i + 1]) == Writes(cards[..i]) + [StoreCall.WriteMainCard(cards[i])]
  {
  }

  /** When no call fails, every card is written once, in order, and then one commit follows. */
  lemma {:induction false} SyncAllSucceed(cards: seq<MainCard>, failure: nat -> Option<AppError>, n: nat)
    requires forall m :: n <= m <= n + |cards| ==> failure(m).None?
    ensures SyncTrace(cards, failure, n) == Sync(Writes(cards) + [StoreCall.SaveContext], None)
    decreases |cards|
  {
    if cards != [] {
      SyncAllSucceed(cards[1..], failure, n + 1);
      assert Writes(cards) == [StoreCall.WriteMainCard(cards[0])] + Writes(cards[1..]);
    }
  }

  /**
   * When the write of card `k` is the first call to throw, cards `0..k` are
   * written, no later card is written, no commit happens, and that error ends the sync.
   */
  lemma {:induction false} SyncStopsAtFailedWrite(cards: seq<MainCard>, failure: nat -> Option<AppError>, n: nat, k: nat)
    requires k < |cards| && failure(n + k).Some?
    requires forall m :: n <= m < n + k ==> failure(m).None?
    ensures SyncTrace(cards, failure, n) == Sync(Writes(cards[..k + 1]), failure(n + k))
    decreases k
  {
    if k > 0 {
      SyncStopsAtFailedWrite(cards[1..], failure, n + 1, k - 1);
      assert cards[1..][..k] == cards[1..k + 1];
      assert Writes(cards[..k + 1]) == [StoreCall.WriteMainCard(cards[0])] + Writes(cards[1..][..k]);
    }
  }

  /** When every write succeeds and the commit throws, all cards were written and the commit's error ends the sync. */
  lemma SyncCommitFails(cards: seq<MainCard>, failure: nat -> Option<AppError>, n: nat)
    requires forall m :: n <= m < n + |cards| ==> failure(m).None?
    requires failure(n + |cards|).Some?
    ensures SyncTrace(cards, failure, n) == Sync(Writes(cards) + [StoreCall.SaveContext], failure(n + |cards|))
  {
    SyncReachesCommit(cards, failure, n);
  }

  /** When no write throws, every card is written and the commit's outcome ends the sync. */
  lemma {:induction false} SyncReachesCommit(cards: seq<MainCard>, failure: nat -> Option<AppError>, n: nat)
    requires forall m :: n <= m < n + |cards| ==> failure(m).None?
    ensures SyncTrace(cards, failure, n) == Sync(Writes(cards) + [StoreCall.SaveContext], failure(n + |cards|))
    decreases |cards|
  {
    if cards != [] {
      SyncReachesCommit(cards[1..], failure, n + 1);
      assert Writes(cards) == [StoreCall.WriteMainCard(cards[0])] + Writes(cards[1..]);
    }
  }

  /** The calls of any sync are a prefix of "every write, then the commit". */
  lemma {:induction false} SyncPrefix(cards: seq<MainCard>, failure: nat -> Option<AppError>, n: nat)
    ensures SyncTrace(cards, failure, n).calls <= Writes(cards) + [StoreCall.SaveContext]
    decreases |cards|
  {
    if cards != [] {
      var head := [StoreCall.WriteMainCard(cards[0])];
      SyncPrefix(cards[1..], failure, n + 1);
      assert Writes(cards) + [StoreCall.SaveContext] == head + (Writes(cards[1..]) + [StoreCall.SaveContext]);
    }
  }

  /** The commit is reached exactly when no write throws. */
  lemma {:induction false} SyncCommitsIff(cards: seq<MainCard>, failure: nat -> Option<AppError>, n: nat)
    ensures (StoreCall.SaveContext in SyncTrace(cards, failure, n).calls) <==>
            (forall m :: n <= m < n + |cards| ==> failure(m).None?)
    decreases |cards|
  {
    if cards != [] {
      SyncCommitsIff(cards[1..], failure, n + 1);
      var rest := SyncTrace(cards[1..], failure, n + 1);
      if failure(n).None? {
        assert SyncTrace(cards, failure, n).calls == [StoreCall.WriteMainCard(cards[0])] + rest.calls;
      } else {
        assert SyncTrace(cards, failure, n).calls == [StoreCall.WriteMainCard(cards[0])];
      }
    }
  }

  /** A sync reports no error exactly when no call it makes throws. */
  lemma {:induction false} SyncErrorIff(cards: seq<MainCard>, failure: nat -> Option<AppError>, n: nat)
    ensures SyncTrace(cards, failure, n).error.None? <==> (forall m :: n <= m <= n + |cards| ==> failure(m).None?)
    decreases |cards|
  {
    if cards != [] {
      SyncErrorIff(cards[1..], failure, n + 1);
    }
  }

  class MainViewController {
    const mainViewModel: MainViewModel
    /** Messages of the alerts shown by `failAlert(message:)`, in order. */
    var alerts: seq<string>
    /** Lines printed to the console, in order. */
    var consoleLog: seq<string>

    constructor (mainViewModel: MainViewModel)
      ensures this.mainViewModel == mainViewModel && alerts == [] && consoleLog == []
    {
      this.mainViewModel := mainViewModel;
      alerts := [];
      consoleLog := [];
    }

    /**
     * The observer `bind()` registers, run on one emission of the card list:
     * the store receives the calls of `SyncTrace` for the current list; a
     * `CoreDataError` ending the sync is alerted with its description, any
     * other error only printed.
     */
    method OnListEmission()
      modifies this, mainViewModel.mainDataManager
      ensures mainViewModel.mainDataManager.calls == old(mainViewModel.mainDataManager.calls) +
        SyncTrace(old(mainViewModel.list), mainViewModel.mainDataManager.failure, |old(mainViewModel.mainDataManager.calls)|).calls
      ensures var error := SyncTrace(old(mainViewModel.list), mainViewModel.mainDataManager.failure,
                                     |old(mainViewModel.mainDataManager.calls)|).error;
        && (error.None? ==> alerts == old(alerts) && consoleLog == old(consoleLog))
        && (error.Some? && error.value.CoreDataError? ==>
              alerts == old(alerts) + [error.value.description] && consoleLog == old(consoleLog))
        && (error.Some? && error.value.OtherError? ==>
              alerts == old(alerts) && consoleLog == old(consoleLog) + [error.value.localizedDescription])
    {
      var error := WriteBack(mainViewModel.list);
      ReportSyncError(error);
    }

    /** The `do` block of the sync: write every card, stopping at the first error, then commit. */
    method WriteBack(cards: seq<MainCard>) returns (error: Option<AppError>)
      modifies mainViewModel.mainDataManager
      ensures var sync := SyncTrace(cards, mainViewModel.mainDataManager.failure, |old(mainViewModel.mainDataManager.calls)|);
        mainViewModel.mainDataManager.calls == old(mainViewModel.mainDataManager.calls) + sync.calls && error == sync.error
    {
      var store := mainViewModel.mainDataManager;
      ghost var n0 := |store.calls|;
      ghost var failure := store.failure;

      error := None;
      var i := 0;
      while i < |cards| && error.None?
        invariant 0 <= i <= |cards|
        invariant store.calls == old(store.calls) + Writes(cards[..i])
        invariant error.None? ==> forall m :: n0 <= m < n0 + i ==> failure(m).None?
        invariant error.Some? ==> 0 < i && error == failure(n0 + i - 1) &&
                                  forall m :: n0 <= m < n0 + i - 1 ==> failure(m).None?
      {
        assert |store.calls| == n0 + i;
        WritesSnoc(cards, i);
        error := store.WriteMainCard(cards[i]);
        i := i + 1;
      }

      if error.None? {
        assert cards[..i] == cards;
        SyncReachesCommit(cards, failure, n0);
        error := store.SaveContext();
      } else {
        SyncStopsAtFailedWrite(cards, failure, n0, i - 1);
      }
    }

    /** The `catch` of the sync: a `CoreDataError` is alerted with its description, any other error printed. */
    method ReportSyncError(error: Option<AppError>)
      modifies this`alerts, this`consoleLog
      ensures error.None? ==> alerts == old(alerts) && consoleLog == old(consoleLog)
      ensures error.Some? && error.value.CoreDataError? ==>
        alerts == old(alerts) + [error.value.description] && consoleLog == old(consoleLog)
      ensures error.Some? && error.value.OtherError? ==>
        alerts == old(alerts) && consoleLog == old(consoleLog) + [error.value.localizedDescription]
    {
      if error.Some? {
        if error.value.CoreDataError? {
          alerts := alerts + [error.value.description];
        } else {
          consoleLog := consoleLog + [error.value.localizedDescription];
        }
      }
    }

    /**
     * `loadData()`: on a successful read the card list becomes exactly what
     * the store returned; on a failure the list stays, a `CoreDataError` is
     * alerted, and every error's localized description is printed.
     */
    method LoadData()
      modifies this, mainViewModel, mainViewModel.mainDataManager
      ensures var store := mainViewModel.mainDataManager;
              var n := |old(store.calls)|;
        && store.calls == old(store.calls) + [StoreCall.ReadMainCards]
        && mainViewModel.commands == old(mainViewModel.commands)
        && (store.failure(n).None? ==>
              mainViewModel.list == store.stored(n) && alerts == old(alerts) && consoleLog == old(consoleLog))
        && (store.failure(n).Some? ==> mainViewModel.list == old(mainViewModel.list))
        && (store.failure(n).Some? && store.failure(n).value.CoreDataError? ==>
              alerts == old(alerts) + [store.failure(n).value.description])
        && (store.failure(n).Some? && store.failure(n).value.OtherError? ==> alerts == old(alerts))
        && (store.failure(n).Some? ==>
              consoleLog == old(consoleLog) + [store.failure(n).value.localizedDescription])
    {
      var result := mainViewModel.mainDataManager.ReadMainCards();
      match result {
        case Success(cards) =>
          mainViewModel.list := cards;
        case Failure(error) =>
          if error.CoreDataError? {
            alerts := alerts + [error.description];
          }
          consoleLog := consoleLog + [error.localizedDescription];
      }
    }
  }
}
