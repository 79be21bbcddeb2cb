/** The data-wipe page of app/routes/wipe.tsx: the file list, the
    confirmation dialog guarded by the phrase "DELETE ALL", and
    `handleDelete`, which deletes every stored file, flushes the key-value
    store and reloads the list. The storage back end is not modelled; each
    call the page makes is recorded, and what the back end answers is a
    parameter. */
module Wipe {
  import opened Wrappers

  /** An entry of the user's storage root. */
  datatype FsItem = FsItem(id: string, name: string, path: string, size: nat)

  /** A call the page makes into storage. */
  datatype StorageCall = DeleteFile(path: string) | FlushKv | ReadDir(dir: string)

  /** How a `handleDelete` run ends: a deletion or the flush throws, or both
      succeed and the reload answers with a listing or (caught inside
      `loadFiles`) with nothing. */
  datatype DeleteOutcome = DeletesFailed | FlushFailed | Completed(reload: Option<seq<FsItem>>)

  const ConfirmPhrase := "DELETE ALL"
  const StorageRoot := "./"

  datatype WipeState = WipeState(
    files: seq<FsItem>,
    showConfirmDialog: bool,
    isDeleting: bool,
    deleteSuccess: bool,
    confirmText: string)

  function Initial(): WipeState {
    WipeState([], false, false, false, "")
  }

  // ---------------------------------------------------------------------------
  // Buttons
  // ---------------------------------------------------------------------------

  /** "Delete All Data" is disabled while there is nothing listed. */
  predicate OpenEnabled(s: WipeState) {
    |s.files| != 0
  }

  /** Cancel is disabled while a deletion is under way. */
  predicate CancelEnabled(s: WipeState) {
    !s.isDeleting
  }

  /** "Delete All" is enabled exactly when the phrase is typed and no
      deletion is under way. */
  predicate ConfirmEnabled(s: WipeState) {
    s.confirmText == ConfirmPhrase && !s.isDeleting
  }

  // ---------------------------------------------------------------------------
  // State changes
  // ---------------------------------------------------------------------------

  /** `loadFiles`: a listing replaces the files; a failed read is caught and
      changes nothing. */
  function Loaded(s: WipeState, listing: Option<seq<FsItem>>): WipeState {
    s.(files := listing.GetOr(s.files))
  }

  function Opened(s: WipeState): WipeState {
    s.(showConfirmDialog := true)
  }

  function Typed(s: WipeState, text: string): WipeState {
    s.(confirmText := text)
  }

  function Cancelled(s: WipeState): WipeState {
    s.(showConfirmDialog := false, confirmText := "")
  }

  /** The start of `handleDelete`: nothing happens unless the typed text is
      exactly the phrase; otherwise the deletion is under way. */
  function DeleteStarted(s: WipeState): WipeState {
    if s.confirmText != ConfirmPhrase then s else s.(isDeleting := true)
  }

  /** The end of `handleDelete`: on success the list is reloaded, success is
      shown, the dialog is closed and the text cleared; on failure only the
      deletion flag is reset (the `finally`), which success resets too. */
  function DeleteFinished(s: WipeState, outcome: DeleteOutcome): WipeState {
    match outcome
    case Completed(reload) =>
      Loaded(s, reload).(deleteSuccess := true, showConfirmDialog := false,
                         confirmText := "", isDeleting := false)
    case _ => s.(isDeleting := false)
  }

  /** A whole `handleDelete` run with nothing happening in between. */
  function Deleted(s: WipeState, outcome: DeleteOutcome): WipeState {
    if s.confirmText != ConfirmPhrase then s else DeleteFinished(DeleteStarted(s), outcome)
  }

  /** One `fs.delete` per listed file, in list order. */
  function DeleteCalls(files: seq<FsItem>): (calls: seq<StorageCall>)
    ensures |calls| == |files|
    ensures forall i :: 0 <= i < |files| ==> calls[i] == DeleteFile(files[i].path)
  {
    if |files| == 0 then []
    else DeleteCalls(files[..|files| - 1]) + [DeleteFile(files[|files| - 1].path)]
  }

  /** The storage calls of one `handleDelete` run that passed the guard. */
  function StorageCalls(files: seq<FsItem>, outcome: DeleteOutcome): seq<StorageCall> {
    DeleteCalls(files)
      + (if outcome == DeletesFailed then [] else [FlushKv])
      + (if outcome.Completed? then [ReadDir(StorageRoot)] else [])
  }

  class WipePage {
    var files: seq<FsItem>
    var showConfirmDialog: bool
    var isDeleting: bool
    var deleteSuccess: bool
    var confirmText: string
    /** Every call made into storage so far, oldest first. */
    var calls: seq<StorageCall>

    function State(): WipeState
      reads this
    {
      WipeState(files, showConfirmDialog, isDeleting, deleteSuccess, confirmText)
    }

    constructor ()
      ensures State() == Initial() && calls == []
    {
      files := [];
      showConfirmDialog := false;
      isDeleting := false;
      deleteSuccess := false;
      confirmText := "";
      calls := [];
    }

    method LoadFiles(listing: Option<seq<FsItem>>)
      modifies this
      ensures State() == Loaded(old(State()), listing)
      ensures calls == old(calls) + [ReadDir(StorageRoot)]
    {
      calls := calls + [ReadDir(StorageRoot)];
      if listing.Some? {
        files := listing.value;
      }
    }

    method OpenDialog()
      modifies this
      ensures State() == Opened(old(State()))
      ensures calls == old(calls)
    {
      showConfirmDialog := true;
    }

    method TypeConfirmText(text: string)
      modifies this
      ensures State() == Typed(old(State()), text)
      ensures calls == old(calls)
    {
      confirmText := text;
    }

    method CancelDialog()
      modifies this
      ensures State() == Cancelled(old(State()))
      ensures calls == old(calls)
    {
      showConfirmDialog := false;
      confirmText := "";
    }

    /** `handleDelete`, with `outcome` saying how storage answers. */
    method HandleDelete(outcome: DeleteOutcome)
      modifies this
      ensures State() == Deleted(old(State()), outcome)
      ensures old(confirmText) != ConfirmPhrase ==> calls == old(calls)
      ensures old(confirmText) == ConfirmPhrase ==> calls == old(calls) + StorageCalls(old(files), outcome)
    {
      if confirmText != ConfirmPhrase {
        return;
      }
      isDeleting := true;
      var i := 0;
      while i < |files|
        invariant 0 <= i <= |files|
        invariant State() == DeleteStarted(old(State()))
        invariant calls == old(calls) + DeleteCalls(files[..i])
      {
        assert files[..i + 1] == files[..i] + [files[i]];
        calls := calls + [DeleteFile(files[i].path)];
        i := i + 1;
      }
      assert files[..i] == files;
      if outcome != DeletesFailed {
        calls := calls + [FlushKv];
        if outcome.Completed? {
          LoadFiles(outcome.reload);
          deleteSuccess := true;
          showConfirmDialog := false;
          confirmText := "";
        }
      }
      isDeleting := false;
    }
  }

  // ---------------------------------------------------------------------------
  // Properties of handleDelete
  // ---------------------------------------------------------------------------

  /** Without the exact phrase, `handleDelete` changes nothing; a near miss
      such as the lower-case phrase or a trailing space is refused. */
  lemma DeleteNeedsExactPhrase(s: WipeState, outcome: DeleteOutcome)
    ensures s.confirmText != ConfirmPhrase ==> Deleted(s, outcome) == s
    ensures Deleted(s.(confirmText := "delete all"), outcome) == s.(confirmText := "delete all")
    ensures Deleted(s.(confirmText := "DELETE ALL "), outcome) == s.(confirmText := "DELETE ALL ")
  {
    assert "delete all"[0] != ConfirmPhrase[0];
    assert |"DELETE ALL "| != |ConfirmPhrase|;
  }

  /** A successful run shows success, closes the dialog, clears the text and
      ends the deletion; the list is whatever the reload returned. */
  lemma SuccessfulDeleteResets(s: WipeState, reload: Option<seq<FsItem>>)
    requires s.confirmText == ConfirmPhrase
    ensures var t := Deleted(s, Completed(reload));
      && t.deleteSuccess && !t.showConfirmDialog && t.confirmText == "" && !t.isDeleting
      && t.files == (if reload.Some? then reload.value else s.files)
  {
  }

  /** A failed run only ends the deletion: success, the dialog, the text and
      the list stay as they were. */
  lemma FailedDeleteKeepsState(s: WipeState, outcome: DeleteOutcome)
    requires s.confirmText == ConfirmPhrase
    requires !outcome.Completed?
    ensures Deleted(s, outcome) == s.(isDeleting := false)
  {
  }

  /** Every listed file is deleted, each before the flush; the flush comes
      only after all deletions succeeded and the reload only after the
      flush, as the last call. */
  lemma {:induction false} StorageCallOrder(files: seq<FsItem>, outcome: DeleteOutcome)
    ensures var calls := StorageCalls(files, outcome);
      && (forall i :: 0 <= i < |files| ==> calls[i] == DeleteFile(files[i].path))
      && (FlushKv in calls <==> outcome != DeletesFailed)
      && (outcome != DeletesFailed ==> calls[|files|] == FlushKv)
      && (ReadDir(StorageRoot) in calls <==> outcome.Completed?)
      && (outcome.Completed? ==> |calls| == |files| + 2 && calls[|files| + 1] == ReadDir(StorageRoot))
      && (outcome == DeletesFailed ==> |calls| == |files|)
  {
    var calls := StorageCalls(files, outcome);
    var deletes := DeleteCalls(files);
    assert forall c :: c in deletes ==> c.DeleteFile?;
    assert calls[..|files|] == deletes;
    if FlushKv in calls {
      var k :| 0 <= k < |calls| && calls[k] == FlushKv;
      assert k >= |files|;
    }
    if ReadDir(StorageRoot) in calls {
      var k :| 0 <= k < |calls| && calls[k] == ReadDir(StorageRoot);
      assert k >= |files|;
    }
  }

  // ---------------------------------------------------------------------------
  // The page driven by its controls
  // ---------------------------------------------------------------------------

  /** What the user or storage can do on the page. `Settled` is the end of
      a pending `handleDelete`. */
  datatype Event =
    | Listed(listing: Option<seq<FsItem>>)
    | ClickOpen
    | Type(text: string)
    | ClickCancel
    | ClickConfirm
    | Settled(outcome: DeleteOutcome)

  /** A control acts only while it is on screen and enabled: the dialog's
      input and buttons exist only while it is shown, and storage settles
      only a deletion that is under way. */
  function Step(s: WipeState, e: Event): WipeState {
    match e
    case Listed(listing) => Loaded(s, listing)
    case ClickOpen => if OpenEnabled(s) then Opened(s) else s
    case Type(text) => if s.showConfirmDialog then Typed(s, text) else s
    case ClickCancel => if s.showConfirmDialog && CancelEnabled(s) then Cancelled(s) else s
    case ClickConfirm => if s.showConfirmDialog && ConfirmEnabled(s) then DeleteStarted(s) else s
    case Settled(outcome) => if s.isDeleting then DeleteFinished(s, outcome) else s
  }

  function Run(s: WipeState, events: seq<Event>): WipeState
    decreases |events|
  {
    if |events| == 0 then s else Run(Step(s, events[0]), events[1..])
  }

  /** A deletion is only ever under way inside the open dialog. */
  ghost predicate Consistent(s: WipeState) {
    s.isDeleting ==> s.showConfirmDialog
  }

  lemma StepStaysConsistent(s: WipeState, e: Event)
    requires Consistent(s)
    ensures Consistent(Step(s, e))
    ensures s.isDeleting && e == ClickConfirm ==> Step(s, e) == s
    ensures s.isDeleting && e == ClickCancel ==> Step(s, e) == s
    ensures s.deleteSuccess ==> Step(s, e).deleteSuccess
  {
  }

  /** From the initial page, any sequence of events keeps the dialog open
      while deleting, never starts a second deletion while one is under way,
      and never takes back a shown success. */
  lemma {:induction false} RunStaysConsistent(s: WipeState, events: seq<Event>)
    requires Consistent(s)
    ensures Consistent(Run(s, events))
    ensures s.deleteSuccess ==> Run(s, events).deleteSuccess
    decreases |events|
  {
    if |events| != 0 {
      StepStaysConsistent(s, events[0]);
      RunStaysConsistent(Step(s, events[0]), events[1..]);
    }
  }

  lemma InitialConsistent()
    ensures Consistent(Initial()) && !Initial().deleteSuccess
    ensures forall events :: Consistent(Run(Initial(), events))
  {
    forall events: seq<Event> ensures Consistent(Run(Initial(), events)) {
      RunStaysConsistent(Initial(), events);
    }
  }

  /** Starting a deletion through the dialog is the guarded start of
      `handleDelete`, and settling it completes the run. */
  lemma ConfirmThenSettleIsDelete(s: WipeState, outcome: DeleteOutcome)
    requires s.showConfirmDialog && ConfirmEnabled(s)
    ensures Run(s, [ClickConfirm, Settled(outcome)]) == Deleted(s, outcome)
  {
    var started := Step(s, ClickConfirm);
    assert started == DeleteStarted(s) && started.isDeleting;
    assert [ClickConfirm, Settled(outcome)][1..] == [Settled(outcome)];
    assert Run(s, [ClickConfirm, Settled(outcome)]) == Run(started, [Settled(outcome)]);
    assert [Settled(outcome)][1..] == [];
    assert Run(started, [Settled(outcome)]) == Run(DeleteFinished(started, outcome), []);
  }
}
