/** FamilyLoadExternalEvent: the single-slot handoff between the acquisition
    pipeline and Revit's API thread. SetLoadData arms the slot; Execute, run
    later by Revit, loads the armed file inside a transaction, reports the
    outcome to the armed callback and clears the slot. */
module LoadEvent {
  import opened Wrappers
  import opened Strings
  import opened Trace
  import opened LoadOptions
  import opened Disk

  /** A loaded Revit family; only its name is read. */
  datatype RevitFamily = RevitFamily(name: string)

  /** What Document.LoadFamily does: return `loaded` and the out family
      (null when absent), or throw. */
  datatype LoadFamilyOutcome =
    | Returned(loaded: bool, family: Option<RevitFamily>)
    | Threw(message: string)

  /** The host as Execute sees it. Each error field, when present, is the
      message of the exception the corresponding call throws. The callback
      may throw on its first invocation and, independently, on the second
      one the outer catch makes. */
  datatype Host = Host(
    hasActiveDocument: bool,
    startError: Option<string>,
    loadOutcome: LoadFamilyOutcome,
    commitError: Option<string>,
    firstCallbackError: Option<string>,
    retryCallbackError: Option<string>)

  const NoDocumentMessage: string := "Нет активного документа"
  const FileNotFoundPrefix: string := "Файл не найден: "
  const CancelledMessage: string := "Загрузка отменена (внутренняя ошибка или семейство без изменений)"
  const NotLoadedMessage: string := "Не удалось загрузить семейство"
  const LoadErrorPrefix: string := "Ошибка загрузки: "
  const ErrorPrefix: string := "Ошибка: "

  /** The classified result of the transaction: what the callback receives
      and whether the transaction was committed (otherwise rolled back). */
  datatype LoadResult = LoadResult(success: bool, message: string, committed: bool)

  /** The name shown to the user: NameRfa when non-empty, else family.Name. */
  function DisplayName(nameRfa: Option<string>, family: RevitFamily): (n: string)
    ensures !IsNullOrEmpty(nameRfa) ==> n == nameRfa.value
    ensures IsNullOrEmpty(nameRfa) ==> n == family.name
  {
    if !IsNullOrEmpty(nameRfa) then nameRfa.value else family.name
  }

  /** The outcome table of the inner try: a non-null family is a success
      ("loaded" or "updated" after `loaded`); a null family is a failure
      (cancelled when not loaded, unexplained when loaded); every returning
      outcome is committed; an exception from LoadFamily or Commit rolls back. */
  function Classify(outcome: LoadFamilyOutcome, commitError: Option<string>, nameRfa: Option<string>): (r: LoadResult)
    ensures r.committed <==> outcome.Returned? && commitError.None?
    ensures r.success <==> r.committed && outcome.family.Some?
    ensures r.committed && r.success ==>
      r.message == if outcome.loaded then "Семейство '" + DisplayName(nameRfa, outcome.family.value) + "' успешно загружено"
                   else "Семейство '" + DisplayName(nameRfa, outcome.family.value) + "' обновлено"
    ensures r.committed && !r.success ==> r.message == (if outcome.loaded then NotLoadedMessage else CancelledMessage)
    ensures outcome.Threw? ==> r.message == LoadErrorPrefix + outcome.message
    ensures outcome.Returned? && commitError.Some? ==> r.message == LoadErrorPrefix + commitError.value
  {
    match outcome
    case Threw(m) => LoadResult(false, LoadErrorPrefix + m, false)
    case Returned(loaded, family) =>
      if commitError.Some? then LoadResult(false, LoadErrorPrefix + commitError.value, false)
      else if family.Some? then
        var name := DisplayName(nameRfa, family.value);
        LoadResult(true, if loaded then "Семейство '" + name + "' успешно загружено" else "Семейство '" + name + "' обновлено", true)
      else if !loaded then LoadResult(false, CancelledMessage, true)
      else LoadResult(false, NotLoadedMessage, true)
  }

  /** The transaction's effects: start, LoadFamily with the options the
      dialog flag selects, then commit or roll back. */
  function TransactionEffects(path: string, showDialog: bool, outcome: LoadFamilyOutcome, commitError: Option<string>): (t: seq<Effect>)
    ensures |t| == 3 && t[0] == TransactionStarted && t[1] == LoadFamily(path, showDialog)
    ensures t[2] == (if Classify(outcome, commitError, None).committed then Committed else RolledBack)
  {
    [TransactionStarted, LoadFamily(path, showDialog),
     if outcome.Returned? && commitError.None? then Committed else RolledBack]
  }

  /** Invoking the callback with the transaction's result inside the outer
      try; when that first invocation throws, the outer catch invokes it once
      more with "Ошибка: " and the first exception's message. */
  function Deliver(cb: Option<Callback>, success: bool, message: string, firstError: Option<string>): (t: seq<Effect>)
    ensures Completions(t) == (if cb.None? then 0 else if firstError.None? then 1 else 2)
    ensures cb.Some? ==> t[0] == Completed(cb.value, success, message)
    ensures cb.Some? && firstError.Some? ==> t[|t| - 1] == Completed(cb.value, false, ErrorPrefix + firstError.value)
  {
    var first := Notify(cb, success, message);
    if cb.Some? && firstError.Some? then
      var second := Notify(cb, false, ErrorPrefix + firstError.value);
      CompletionsAppend(first, second);
      first + second
    else first
  }

  /** The exception a single invocation of the callback lets out, outside any
      try: the early returns and the outer catch after a failed Start. */
  function ThrownBy(cb: Option<Callback>, error: Option<string>): (e: Option<string>)
    ensures e.Some? <==> cb.Some? && error.Some?
    ensures e.Some? ==> e == error
  {
    if cb.Some? then error else None
  }

  /** The exception that leaves Execute after the transaction ran: only the
      retry in the outer catch can let one out, so it escapes exactly when the
      callback throws on both invocations, and it is the retry's. */
  function Escaping(cb: Option<Callback>, host: Host): (e: Option<string>)
    ensures e.Some? <==> cb.Some? && host.firstCallbackError.Some? && host.retryCallbackError.Some?
    ensures e.Some? ==> e == host.retryCallbackError
  {
    if cb.Some? && host.firstCallbackError.Some? then host.retryCallbackError else None
  }

  /** The file check: a non-empty path naming an existing file. */
  predicate FileFound(path: Option<string>, files: set<string>) {
    !IsNullOrEmpty(path) && path.value in files
  }

  class FamilyLoadExternalEvent {
    var familyFilePath: Option<string>
    var nameRfa: Option<string>
    var showDialog: bool
    var callback: Option<Callback>

    /** The cleared slot Execute's finally block leaves behind. */
    predicate IsCleared()
      reads this
    {
      familyFilePath.None? && nameRfa.None? && showDialog && callback.None?
    }

    /** A new handler: all fields at their C# defaults (showDialog false). */
    constructor ()
      ensures familyFilePath.None? && nameRfa.None? && !showDialog && callback.None?
    {
      familyFilePath := None;
      nameRfa := None;
      showDialog := false;
      callback := None;
    }

    /** GetName */
    function GetName(): (n: string)
      ensures n == "FamilyLoadExternalEvent"
    {
      "FamilyLoadExternalEvent"
    }

    /** SetLoadData: overwrites all four fields, so an earlier callback that
        was not yet executed is dropped. */
    method SetLoadData(familyFilePath: Option<string>, nameRfa: Option<string>, callback: Option<Callback>, showDialog: bool)
      modifies this
      ensures this.familyFilePath == familyFilePath && this.nameRfa == nameRfa
      ensures this.callback == callback && this.showDialog == showDialog
    {
      this.familyFilePath := familyFilePath;
      this.nameRfa := nameRfa;
      this.callback := callback;
      this.showDialog := showDialog;
    }

    /** The classification of a LoadFamily call that returned. */
    method ClassifyReturned(loaded: bool, family: Option<RevitFamily>) returns (success: bool, message: string)
      ensures success == Classify(Returned(loaded, family), None, nameRfa).success
      ensures message == Classify(Returned(loaded, family), None, nameRfa).message
    {
      if family.Some? {
        success := true;
        var displayName := DisplayName(nameRfa, family.value);
        if loaded {
          message := "Семейство '" + displayName + "' успешно загружено";
        } else {
          message := "Семейство '" + displayName + "' обновлено";
        }
      } else if !loaded {
        success := false;
        message := CancelledMessage;
      } else {
        success := false;
        message := NotLoadedMessage;
      }
    }

    /** The inner try of Execute: start the transaction, load the family with
        the options the dialog flag selects, classify the outcome and commit,
        or roll back when LoadFamily or Commit throws. */
    method RunTransaction(path: string, outcome: LoadFamilyOutcome, commitError: Option<string>)
      returns (trace: seq<Effect>, success: bool, message: string)
      ensures trace == TransactionEffects(path, showDialog, outcome, commitError)
      ensures success == Classify(outcome, commitError, nameRfa).success
      ensures message == Classify(outcome, commitError, nameRfa).message
    {
      trace := [TransactionStarted];
      success := false;
      message := "";
      trace := trace + [LoadFamily(path, showDialog)];
      match outcome {
        case Threw(m) =>
          trace := trace + [RolledBack];
          success := false;
          message := LoadErrorPrefix + m;
        case Returned(loaded, family) =>
          success, message := ClassifyReturned(loaded, family);
          if commitError.Some? {
            trace := trace + [RolledBack];
            success := false;
            message := LoadErrorPrefix + commitError.value;
          } else {
            trace := trace + [Committed];
          }
      }
    }

    /** Execute. `files` are the paths File.Exists reports. Returns the
        effects in order and the exception that escapes, if any. The two
        early returns leave the slot as it was; every other path clears it. */
    method Execute(host: Host, files: set<string>) returns (trace: seq<Effect>, escaped: Option<string>)
      modifies this
      ensures !host.hasActiveDocument ==>
        && trace == Notify(old(callback), false, NoDocumentMessage)
        && escaped == ThrownBy(old(callback), host.firstCallbackError)
        && unchanged(this)
      ensures host.hasActiveDocument && !FileFound(old(familyFilePath), files) ==>
        && trace == Notify(old(callback), false, FileNotFoundPrefix + Text(old(familyFilePath)))
        && escaped == ThrownBy(old(callback), host.firstCallbackError)
        && unchanged(this)
      ensures host.hasActiveDocument && FileFound(old(familyFilePath), files) ==>
        && IsCleared()
        && (host.startError.Some? ==>
              && trace == Notify(old(callback), false, ErrorPrefix + host.startError.value)
              && escaped == ThrownBy(old(callback), host.firstCallbackError))
        && (host.startError.None? ==>
              var r := Classify(host.loadOutcome, host.commitError, old(nameRfa));
              && trace == TransactionEffects(old(familyFilePath).value, old(showDialog), host.loadOutcome, host.commitError)
                          + Deliver(old(callback), r.success, r.message, host.firstCallbackError)
              && escaped == Escaping(old(callback), host))
    {
      escaped := None;
      if !host.hasActiveDocument {
        trace := Notify(callback, false, NoDocumentMessage);
        if callback.Some? { escaped := host.firstCallbackError; }
        return;
      }
      if IsNullOrEmpty(familyFilePath) || familyFilePath.value !in files {
        trace := Notify(callback, false, FileNotFoundPrefix + Text(familyFilePath));
        if callback.Some? { escaped := host.firstCallbackError; }
        return;
      }
      var path := familyFilePath.value;
      trace := [];
      if host.startError.Some? {
        // Transaction.Start threw: the outer catch reports it.
        trace := Notify(callback, false, ErrorPrefix + host.startError.value);
        if callback.Some? {
          escaped := host.firstCallbackError;
        }
      } else {
        var success, message;
        trace, success, message := RunTransaction(path, host.loadOutcome, host.commitError);
        var delivered := Notify(callback, success, message);
        if callback.Some? && host.firstCallbackError.Some? {
          // The callback threw: the outer catch invokes it again.
          delivered := delivered + Notify(callback, false, ErrorPrefix + host.firstCallbackError.value);
          escaped := host.retryCallbackError;
        }
        trace := trace + delivered;
      }
      // finally
      familyFilePath := None;
      nameRfa := None;
      showDialog := true;
      callback := None;
    }
  }

  /** A callback that throws on its first invocation but not on the retry
      receives two reports, the second carrying the first exception's
      message, and nothing escapes Execute. */
  lemma CallbackThrowingOnceIsContained(cb: Callback, host: Host, success: bool, message: string)
    requires host.firstCallbackError.Some? && host.retryCallbackError.None?
    ensures Escaping(Some(cb), host).None?
    ensures Deliver(Some(cb), success, message, host.firstCallbackError) ==
      [Completed(cb, success, message), Completed(cb, false, ErrorPrefix + host.firstCallbackError.value)]
  {
  }

  /** A transaction that was started is committed exactly when nothing inside
      it threw, whichever way the outcome is classified, and the callback
      then reports success exactly when Revit handed back a family. */
  lemma CommitIndependentOfSuccess(outcome: LoadFamilyOutcome, nameRfa: Option<string>)
    requires outcome.Returned?
    ensures Classify(outcome, None, nameRfa).committed
    ensures Classify(outcome, None, nameRfa).success <==> outcome.family.Some?
  {
  }
}
