/** The configuration dialogs that load a list of documents or resources and then delete,
    unsync or sync them one by one while showing a progress bar: the two "delete expired
    documents" dialogs, the two "unsync all resources" dialogs and the "sync all resources"
    dialog. They share one state machine and differ only in the verb of their error lines and
    in where they check the user: the `components` variants check the user when loading and
    again for every item, the `reflex` variants load without checking and look the user up
    once, before the loop. The `components` "delete expired documents" dialog calls its user
    checks without `await`: the coroutine it gets is truthy and is handed to `AuthenticateUser`
    as the user, so that dialog never refuses anyone. */
module ProgressDialog {
  import opened Wrappers

  /** What the dialog lists: the id and name of a RAG document or a resource. */
  datatype Item = Item(id: string, name: string)

  datatype Status = Pending | Running | Done

  /** What distinguishes the dialogs: the verb of their error lines, whether loading checks
      the user, whether the user is checked for every item, whether those user checks are
      awaited (an un-awaited `check_authentication()` is a truthy coroutine, and an un-awaited
      `get_and_check_current_user()` checks nothing), and whether the RAG service is awaited
      (the asynchronous computed variable `get_dataset_rag_app_service` of the main state read
      without `await` is a coroutine, which has none of the service's methods). */
  datatype Variant = Variant(verb: string, checksAuthOnLoad: bool, userPerItem: bool,
                             awaitsUserChecks: bool, awaitsService: bool)

  /** `reflex/rag_chat/config/delete_expired_documents_dialog`. */
  const DELETE_EXPIRED_REFLEX := Variant("deleting document", false, false, true, true)
  /** `components/config/delete_expired_documents_dialog`, which calls its user checks and
      reads the service without `await`. */
  const DELETE_EXPIRED_COMPONENTS := Variant("deleting document", true, true, false, false)
  /** `reflex/rag_chat/config/unsync_all_resources_dialog`. */
  const UNSYNC_ALL_REFLEX := Variant("unsyncing resource", false, false, true, true)
  /** `components/config/unsync_all_resources_dialog`. */
  const UNSYNC_ALL_COMPONENTS := Variant("unsyncing resource", true, true, true, true)
  /** `components/config/sync_all_resources_dialog`. */
  const SYNC_ALL_COMPONENTS := Variant("syncing resource", true, true, true, true)

  /** The message of the AttributeError raised by calling a service method on a coroutine. */
  const COROUTINE_HAS_NO_DELETE := "'coroutine' object has no attribute 'delete_rag_document'"

  /** What loading gets from the service: its list, or an AttributeError when the service was
      not awaited. */
  function ServiceList(variant: Variant, loaded: Result<seq<Item>>): (r: Result<seq<Item>>)
    ensures variant.awaitsService ==> r == loaded
    ensures !variant.awaitsService ==> r == Err(AttributeError)
  {
    if variant.awaitsService then loaded else Err(AttributeError)
  }

  /** How each item of a run ends once the user check lets it through: as the service's
      operation ends, or with the AttributeError of a service that was not awaited. */
  function ItemOutcome(variant: Variant, outcome: Item -> Option<string>): Item -> Option<string>
  {
    if variant.awaitsService then outcome else FailsWith(COROUTINE_HAS_NO_DELETE)
  }

  /** Loading refuses the user: the dialog checks the user when loading, awaits that check,
      and the user is not authenticated. */
  predicate RefusesLoad(variant: Variant, authenticated: bool)
  {
    variant.checksAuthOnLoad && variant.awaitsUserChecks && !authenticated
  }

  /** How each item of a run ends: a user check that is awaited and fails makes every item
      fail with its message; otherwise the item ends as `ItemOutcome` says. */
  function RunOutcome(variant: Variant, userOk: bool, authError: string,
                      outcome: Item -> Option<string>): Item -> Option<string>
  {
    if userOk || !variant.awaitsUserChecks then ItemOutcome(variant, outcome) else FailsWith(authError)
  }

  /** The status shown above the progress bar: nothing started while the progress is
      negative, running until every item is processed, done afterwards. */
  function StatusOf(progress: int, count: nat): (s: Status)
    ensures s == Pending <==> progress < 0
    ensures s == Running <==> 0 <= progress < count
    ensures s == Done <==> 0 <= progress && count <= progress
  {
    if progress < 0 then Pending else if progress < count then Running else Done
  }

  /** Python's `int()` on a quotient: truncation toward zero. */
  function TruncDiv(a: int, b: int): (q: int)
    requires b > 0
    ensures a >= 0 ==> q * b <= a < (q + 1) * b
    ensures a < 0 ==> q == -((-a) / b)
  {
    if a >= 0 then a / b else -((-a) / b)
  }

  /** The progress percentage: 0 for an empty list, else `int(progress / count * 100)`,
      computed exactly. */
  function Percent(progress: int, count: nat): int
  {
    if count <= 0 then 0 else TruncDiv(progress * 100, count)
  }

  /** Once the run has started and until it ends, the percentage is between 0 and 100; it
      is 0 at the start and 100 at the end. */
  lemma PercentBounds(progress: int, count: nat)
    requires 0 <= progress <= count
    ensures 0 <= Percent(progress, count) <= 100
    ensures progress == 0 ==> Percent(progress, count) == 0
    ensures 0 < count && progress == count ==> Percent(progress, count) == 100
  {
    if count > 0 {
      var q := Percent(progress, count);
      assert q * count <= progress * 100;
      assert progress * 100 <= count * 100;
      if progress == count {
        assert (q + 1) * count > count * 100;
        assert q + 1 > 100;
      }
    }
  }

  /** The line recorded for a failed item: `Error <verb> '<name>' <id>: <error>`. */
  function ErrorLine(verb: string, item: Item, error: string): (line: string)
    ensures |line| > |item.name| + |item.id|
    ensures var n := 8 + |verb|;
            var d := n + |item.name| + 2;
            && |line| == d + |item.id| + 2 + |error|
            && line[..6] == "Error " && line[6..6 + |verb|] == verb && line[6 + |verb|..n] == " '"
            && line[n..n + |item.name|] == item.name && line[n + |item.name|..d] == "' "
            && line[d..d + |item.id|] == item.id && line[d + |item.id|..] == ": " + error
  {
    "Error " + verb + " '" + item.name + "' " + item.id + ": " + error
  }

  /** The error lines of a run over `items`, in order, where `outcome` gives the exception
      message of an item whose operation fails and `None` for one that succeeds. */
  function Failures(verb: string, items: seq<Item>, outcome: Item -> Option<string>): seq<string>
    decreases |items|
  {
    if |items| == 0 then []
    else
      var last := items[|items| - 1];
      Failures(verb, items[..|items| - 1], outcome) +
      (if outcome(last).Some? then [ErrorLine(verb, last, outcome(last).value)] else [])
  }

  /** Every item fails with the same message (the user check inside each item's `try`). */
  function FailsWith(message: string): Item -> Option<string>
  {
    (item: Item) => Some(message)
  }

  /** There is at most one error line per item. */
  lemma {:induction false} FailuresAtMostItems(verb: string, items: seq<Item>, outcome: Item -> Option<string>)
    ensures |Failures(verb, items, outcome)| <= |items|
    decreases |items|
  {
    if |items| > 0 {
      FailuresAtMostItems(verb, items[..|items| - 1], outcome);
    }
  }

  /** When every item fails there is exactly one line per item, naming it. */
  lemma {:induction false} EveryItemFailing(verb: string, items: seq<Item>, outcome: Item -> Option<string>)
    requires forall i :: 0 <= i < |items| ==> outcome(items[i]).Some?
    ensures |Failures(verb, items, outcome)| == |items|
    ensures forall i :: 0 <= i < |items| ==>
              Failures(verb, items, outcome)[i] == ErrorLine(verb, items[i], outcome(items[i]).value)
    decreases |items|
  {
    if |items| > 0 {
      var init := items[..|items| - 1];
      EveryItemFailing(verb, init, outcome);
    }
  }

  /** When no item fails there is no error line. */
  lemma {:induction false} NoItemFailing(verb: string, items: seq<Item>, outcome: Item -> Option<string>)
    requires forall i :: 0 <= i < |items| ==> outcome(items[i]).None?
    ensures Failures(verb, items, outcome) == []
    decreases |items|
  {
    if |items| > 0 {
      NoItemFailing(verb, items[..|items| - 1], outcome);
    }
  }

  /** The `components` "delete expired documents" dialog as written: loading never refuses
      the user and fails with an AttributeError, and in a run, whoever the user is, every item
      fails with the coroutine's AttributeError, one error line per item, in order. */
  lemma UnawaitedServiceFailsEveryItem(items: seq<Item>, loaded: Result<seq<Item>>, authenticated: bool,
                                       userOk: bool, authError: string, outcome: Item -> Option<string>)
    ensures !RefusesLoad(DELETE_EXPIRED_COMPONENTS, authenticated)
    ensures ServiceList(DELETE_EXPIRED_COMPONENTS, loaded) == Err(AttributeError)
    ensures var lines := Failures(DELETE_EXPIRED_COMPONENTS.verb, items,
                                  RunOutcome(DELETE_EXPIRED_COMPONENTS, userOk, authError, outcome));
            && |lines| == |items|
            && forall i :: 0 <= i < |items| ==>
                 lines[i] == ErrorLine("deleting document", items[i], COROUTINE_HAS_NO_DELETE)
  {
    EveryItemFailing(DELETE_EXPIRED_COMPONENTS.verb, items,
                     RunOutcome(DELETE_EXPIRED_COMPONENTS, userOk, authError, outcome));
  }

  /** The dialogs that await their checks refuse to load for an unauthenticated user exactly
      when they check the user on loading, and fail every item of a run for a user whose
      check fails. */
  lemma AwaitedChecksRefuse(variant: Variant, items: seq<Item>, authError: string, outcome: Item -> Option<string>)
    requires variant.awaitsUserChecks
    ensures RefusesLoad(variant, false) <==> variant.checksAuthOnLoad
    ensures var lines := Failures(variant.verb, items, RunOutcome(variant, false, authError, outcome));
            && |lines| == |items|
            && forall i :: 0 <= i < |items| ==> lines[i] == ErrorLine(variant.verb, items[i], authError)
  {
    EveryItemFailing(variant.verb, items, RunOutcome(variant, false, authError, outcome));
  }

  /** A dialog that awaits the service lists what the service returns, and records an error
      line exactly for the items whose operation fails. */
  lemma AwaitedServiceKeepsOutcomes(variant: Variant, items: seq<Item>, loaded: Result<seq<Item>>,
                                    outcome: Item -> Option<string>)
    requires variant.awaitsService
    ensures ServiceList(variant, loaded) == loaded
    ensures Failures(variant.verb, items, ItemOutcome(variant, outcome)) == Failures(variant.verb, items, outcome)
  {
  }

  class Dialog {
    const variant: Variant
    /** `documents_to_delete` / `resources_to_unsync` / `resources_to_sync`. */
    var items: seq<Item>
    var isOpen: bool
    /** The number of items processed so far, or -1 before a run. */
    var progress: int
    var errors: seq<string>

    constructor (variant: Variant)
      ensures this.variant == variant
      ensures items == [] && !isOpen && progress == -1 && errors == []
      ensures Status() == Pending
    {
      this.variant := variant;
      items := [];
      isOpen := false;
      progress := -1;
      errors := [];
    }

    function Status(): Status
      reads this
    {
      StatusOf(progress, |items|)
    }

    method OpenDialog()
      modifies this
      ensures isOpen && items == old(items) && progress == old(progress) && errors == old(errors)
    {
      isOpen := true;
    }

    method CloseDialog()
      modifies this
      ensures !isOpen && items == old(items) && progress == old(progress) && errors == old(errors)
    {
      isOpen := false;
    }

    /** Loading the list: a variant that checks the user on loading and awaits that check
        raises without an authenticated user and changes nothing; otherwise the list is
        emptied and the progress reset, then the service's list is stored. When the service
        raises, the empty list stays. */
    method Load(authenticated: bool, loaded: Result<seq<Item>>) returns (r: Outcome)
      modifies this
      ensures RefusesLoad(variant, authenticated) ==>
                r == Fail(GenericException) && items == old(items) && progress == old(progress)
      ensures !RefusesLoad(variant, authenticated) ==>
                && progress == -1 && Status() == Pending
                && (ServiceList(variant, loaded).Ok? ==> r == Pass && items == loaded.value)
                && (ServiceList(variant, loaded).Err? ==> r == Fail(ServiceList(variant, loaded).kind) && items == [])
      ensures !RefusesLoad(variant, authenticated) && !variant.awaitsService ==>
                r == Fail(AttributeError) && items == []
      ensures errors == old(errors) && isOpen == old(isOpen)
    {
      if RefusesLoad(variant, authenticated) {
        return Fail(GenericException);
      }
      items := [];
      progress := -1;
      var listed := ServiceList(variant, loaded);
      if listed.Err? {
        return Fail(listed.kind);
      }
      items := listed.value;
      r := Pass;
    }

    /** `on_..._dialog_event`: opening the dialog loads the list; closing it does nothing. */
    method OnDialogEvent(isOpened: bool, authenticated: bool, loaded: Result<seq<Item>>) returns (r: Outcome)
      modifies this
      ensures !isOpened ==> r == Pass && items == old(items) && progress == old(progress)
      ensures isOpened && !RefusesLoad(variant, authenticated) && ServiceList(variant, loaded).Ok? ==>
                r == Pass && items == loaded.value && Status() == Pending
      ensures errors == old(errors) && isOpen == old(isOpen)
    {
      r := Pass;
      if isOpened {
        r := Load(authenticated, loaded);
      }
    }

    /** The run: progress restarts at 0 with no errors. A `reflex` variant without a user
        raises there. Otherwise every item is processed in order, its failure recorded as one
        error line (a `components` variant whose awaited user check fails fails every item),
        and the progress counts every item, failed or not, so the run ends `Done`. */
    method Run(userOk: bool, authError: string, outcome: Item -> Option<string>) returns (r: Outcome)
      modifies this
      ensures items == old(items) && isOpen == old(isOpen)
      ensures !variant.userPerItem && !userOk ==> r == Fail(GenericException) && progress == 0 && errors == []
      ensures variant.userPerItem || userOk ==>
                && r == Pass
                && progress == |items|
                && Status() == Done
                && errors == Failures(variant.verb, items, RunOutcome(variant, userOk, authError, outcome))
    {
      progress := 0;
      errors := [];
      if !variant.userPerItem && !userOk {
        return Fail(GenericException);
      }
      var effective := RunOutcome(variant, userOk, authError, outcome);
      var i := 0;
      while i < |items|
        invariant 0 <= i <= |items| && progress == i
        invariant items == old(items) && isOpen == old(isOpen)
        invariant errors == Failures(variant.verb, items[..i], effective)
      {
        var item := items[i];
        assert items[..i + 1][..i] == items[..i] && items[..i + 1][i] == item;
        var failure := effective(item);
        assert Failures(variant.verb, items[..i + 1], effective) ==
               Failures(variant.verb, items[..i], effective) +
               (if failure.Some? then [ErrorLine(variant.verb, item, failure.value)] else []);
        if failure.Some? {
          errors := errors + [ErrorLine(variant.verb, item, failure.value)];
        }
        progress := progress + 1;
        i := i + 1;
      }
      assert items[..i] == items;
      r := Pass;
    }
  }
}
