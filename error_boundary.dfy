/** The error boundary of src/components/ErrorBoundary.tsx and its hook
    version `useErrorHandler`: the `hasError` state that decides what is
    rendered, and the local error log under "app-errors" that keeps the ten
    most recent errors. */
module ErrorBoundary {
  import opened Wrappers
  import opened Bounds

  const ErrorLogKey: string := "app-errors"
  const MaxErrors: nat := 10

  /** A thrown `Error`. */
  datatype Failure = Failure(message: string, stack: Option<string>)

  /** One logged error. The component stack (boundary) or the extra
      information (hook), the clock, the user agent and the page address
      come from outside. */
  datatype ErrorRecord = ErrorRecord(
    message: string,
    stack: Option<string>,
    context: Option<string>,
    timestamp: string,
    userAgent: string,
    url: string)

  function RecordOf(error: Failure, context: Option<string>, timestamp: string, userAgent: string, url: string): (r: ErrorRecord)
    ensures r.message == error.message && r.stack == error.stack && r.context == context
  {
    ErrorRecord(error.message, error.stack, context, timestamp, userAgent, url)
  }

  // ------------------------------------------------------- the kept log

  /** The newest ten entries of a log, in their order. */
  function LastTen<T>(s: seq<T>): seq<T> {
    if |s| > MaxErrors then s[|s| - MaxErrors..] else s
  }

  /** The log after one more error: appended, then trimmed from the front to
      ten entries. */
  function Logged<T>(existing: seq<T>, entry: T): seq<T> {
    LastTen(existing + [entry])
  }

  /** `existingErrors.push(errorData)` and, when the log is then longer than
      ten, `existingErrors.splice(0, existingErrors.length - 10)`. */
  method PushKeepLast<T>(existing: seq<T>, entry: T) returns (errors: seq<T>)
    ensures errors == Logged(existing, entry)
    ensures |errors| == Min(|existing| + 1, MaxErrors)
  {
    errors := existing + [entry];
    if |errors| > MaxErrors {
      errors := errors[|errors| - MaxErrors..];
    }
  }

  /** The log never holds more than ten entries, and holds exactly
      min(n + 1, 10) after logging onto n. */
  lemma LoggedLength<T>(existing: seq<T>, entry: T)
    ensures |Logged(existing, entry)| == Min(|existing| + 1, MaxErrors)
    ensures |Logged(existing, entry)| <= MaxErrors
  {
  }

  /** The newest entry is always kept, as the last element. */
  lemma NewestKept<T>(existing: seq<T>, entry: T)
    ensures |Logged(existing, entry)| > 0
    ensures Logged(existing, entry)[|Logged(existing, entry)| - 1] == entry
  {
  }

  /** With fewer than ten entries before, nothing is dropped. */
  lemma NothingDroppedWhenShort<T>(existing: seq<T>, entry: T)
    requires |existing| < MaxErrors
    ensures Logged(existing, entry) == existing + [entry]
  {
  }

  /** What survives is the newest part of the old log, in its order,
      followed by the new entry: only the oldest entries are dropped. */
  lemma OldestDropped<T>(existing: seq<T>, entry: T)
    ensures var r := Logged(existing, entry);
            r == existing[|existing| + 1 - |r|..] + [entry]
  {
    var r := Logged(existing, entry);
    var all := existing + [entry];
    assert r == all[|all| - |r|..];
    assert all[|all| - |r|..] == all[|all| - |r|..|existing|] + [entry];
  }

  /** Logging entries one at a time. */
  function LogAll<T>(existing: seq<T>, entries: seq<T>): seq<T>
    decreases |entries|
  {
    if entries == [] then existing else LogAll(Logged(existing, entries[0]), entries[1..])
  }

  /** However many errors are logged onto a log of at most ten, the result is
      the ten newest of all of them. */
  lemma {:induction false} LogAllKeepsNewest<T>(existing: seq<T>, entries: seq<T>)
    requires |existing| <= MaxErrors
    ensures LogAll(existing, entries) == LastTen(existing + entries)
    decreases |entries|
  {
    if entries == [] {
      assert existing + entries == existing;
    } else {
      var next := Logged(existing, entries[0]);
      LogAllKeepsNewest(next, entries[1..]);
      var all := existing + entries;
      assert (existing + [entries[0]]) + entries[1..] == all;
      if |existing| + 1 > MaxErrors {
        var front := existing + [entries[0]];
        assert next == front[1..];
        assert next + entries[1..] == all[1..];
        assert LastTen(all[1..]) == LastTen(all);
      }
    }
  }

  // ------------------------------------------------------- the stored log

  /** The "app-errors" slot. */
  class ErrorLog {
    var slot: Slot<seq<ErrorRecord>>

    constructor (slot: Slot<seq<ErrorRecord>>)
      ensures this.slot == slot
    {
      this.slot := slot;
    }

    /** The body of `logErrorToService` and of `handleError`: a missing log
        reads as `[]`; a log that does not parse, or a write the browser
        refuses, is caught and leaves the slot as it was. */
    method Append(entry: ErrorRecord, writeFails: bool)
      modifies this
      ensures old(slot).Corrupt? || writeFails ==> slot == old(slot)
      ensures old(slot).Missing? && !writeFails ==> slot == Stored([entry])
      ensures old(slot).Stored? && !writeFails ==> slot == Stored(Logged(old(slot).value, entry))
      ensures slot.Stored? ==> |slot.value| <= MaxErrors || slot == old(slot)
    {
      var existing: seq<ErrorRecord>;
      match slot {
        case Corrupt => return;
        case Missing => existing := [];
        case Stored(errors) => existing := errors;
      }
      var errors := PushKeepLast(existing, entry);
      assert existing == [] ==> existing + [entry] == [entry];
      if !writeFails {
        slot := Stored(errors);
      }
    }
  }

  /** `useErrorHandler().handleError`: the same append-and-keep-ten rule. */
  method HandleError(log: ErrorLog, error: Failure, additionalInfo: Option<string>,
                     timestamp: string, userAgent: string, url: string, writeFails: bool)
    modifies log
    ensures old(log.slot).Stored? && !writeFails ==>
              log.slot == Stored(Logged(old(log.slot).value, RecordOf(error, additionalInfo, timestamp, userAgent, url)))
    ensures old(log.slot).Missing? && !writeFails ==>
              log.slot == Stored([RecordOf(error, additionalInfo, timestamp, userAgent, url)])
    ensures old(log.slot).Corrupt? || writeFails ==> log.slot == old(log.slot)
  {
    log.Append(RecordOf(error, additionalInfo, timestamp, userAgent, url), writeFails);
  }

  // ------------------------------------------------------- the boundary

  /** What `render` shows. */
  datatype View = Children | Fallback | ErrorCard

  /** The component's `state`. */
  datatype BoundaryState = BoundaryState(hasError: bool, error: Option<Failure>, errorInfo: Option<string>)

  const Healthy: BoundaryState := BoundaryState(false, None, None)

  /** `getDerivedStateFromError`: the partial state React merges in. */
  function DerivedState(s: BoundaryState, error: Failure): (r: BoundaryState)
    ensures r.hasError && r.error == Some(error) && r.errorInfo == s.errorInfo
  {
    s.(hasError := true, error := Some(error))
  }

  /** `render`: the children exactly while no error has been caught; after
      one, the `fallback` prop when it is given, the error card otherwise. */
  function Render(s: BoundaryState, hasFallback: bool): (v: View)
    ensures v == Children <==> !s.hasError
    ensures v == Fallback <==> s.hasError && hasFallback
  {
    if s.hasError then (if hasFallback then Fallback else ErrorCard) else Children
  }

  class Boundary {
    var state: BoundaryState
    const hasFallback: bool
    const log: ErrorLog

    constructor (hasFallback: bool, log: ErrorLog)
      ensures state == Healthy
      ensures this.hasFallback == hasFallback && this.log == log
      ensures View() == Children
    {
      state := Healthy;
      this.hasFallback := hasFallback;
      this.log := log;
    }

    function View(): View
      reads this
    {
      Render(state, hasFallback)
    }

    /** A descendant threw: React merges the derived state, so the children
        are no longer shown. */
    method CatchError(error: Failure)
      modifies this
      ensures state == DerivedState(old(state), error)
      ensures View() != Children
    {
      state := DerivedState(state, error);
    }

    /** `componentDidCatch`: the error is logged and kept with its component
        stack. */
    method ComponentDidCatch(error: Failure, componentStack: string,
                             timestamp: string, userAgent: string, url: string, writeFails: bool)
      modifies this, log
      ensures state == old(state).(error := Some(error), errorInfo := Some(componentStack))
      ensures state.hasError == old(state).hasError
      ensures old(log.slot).Stored? && !writeFails ==>
                log.slot == Stored(Logged(old(log.slot).value, RecordOf(error, Some(componentStack), timestamp, userAgent, url)))
      ensures old(log.slot).Missing? && !writeFails ==>
                log.slot == Stored([RecordOf(error, Some(componentStack), timestamp, userAgent, url)])
      ensures old(log.slot).Corrupt? || writeFails ==> log.slot == old(log.slot)
    {
      log.Append(RecordOf(error, Some(componentStack), timestamp, userAgent, url), writeFails);
      state := state.(error := Some(error), errorInfo := Some(componentStack));
    }

    /** "Try Again": back to the children, with error and errorInfo
        cleared. */
    method HandleRetry()
      modifies this
      ensures state == Healthy
      ensures View() == Children
    {
      state := Healthy;
    }
  }
}
