/**
 * `ErrorHandler`: every handled error becomes one `ErrorInfo` at the end of the
 * history; a recovery handler registered under the error's class name marks it
 * recoverable and is called with it, and whatever that handler raises stays
 * inside `handle_error`. The history can be read back filtered by category and
 * level, in the order the errors were handled.
 */
module CoreErrors {
  import opened Wrappers
  import opened IsoTime
  import opened JsonValues
  import opened Lists

  datatype ErrorLevel = Info | Warning | Error | Critical

  datatype ErrorCategory = State | File | Generation | Validation | Network | UI | Config

  /** An exception, by what `handle_error` reads of it: its class name and `str(error)`. */
  datatype Raised = Raised(className: string, message: string)

  /** A registered recovery callable, by identity. */
  type Handler = nat

  datatype ErrorInfo = ErrorInfo(
    errorType: string,
    message: string,
    category: ErrorCategory,
    level: ErrorLevel,
    timestamp: Timestamp,
    context: map<string, Json>,
    traceback: Option<string>,
    canRecover: bool,
    recoveryAction: Option<Handler>)

  /** `_get_recovery_handler(error_type)`: the handler registered under the name, if any. */
  function Recovery(handlers: map<string, Handler>, errorType: string): (r: Option<Handler>)
    ensures r.Some? <==> errorType in handlers
    ensures r.Some? ==> r.value == handlers[errorType]
  {
    if errorType in handlers then Some(handlers[errorType]) else None
  }

  // ---------------------------------------------------------------- filtering

  /** An entry the filters keep: a category and a level that are absent or equal to the entry's. */
  predicate Matches(e: ErrorInfo, category: Option<ErrorCategory>, level: Option<ErrorLevel>)
  {
    (category.None? || e.category == category.value) && (level.None? || e.level == level.value)
  }

  /** `[e for e in filtered if e.category == category]`. */
  function OfCategory(s: seq<ErrorInfo>, category: ErrorCategory): seq<ErrorInfo>
  {
    if |s| == 0 then []
    else (if s[0].category == category then [s[0]] else []) + OfCategory(s[1..], category)
  }

  /** `[e for e in filtered if e.level == level]`. */
  function OfLevel(s: seq<ErrorInfo>, level: ErrorLevel): seq<ErrorInfo>
  {
    if |s| == 0 then []
    else (if s[0].level == level then [s[0]] else []) + OfLevel(s[1..], level)
  }

  /** `get_error_history(category, level)`: the history filtered by category, then by level. */
  function Filtered(history: seq<ErrorInfo>, category: Option<ErrorCategory>, level: Option<ErrorLevel>): seq<ErrorInfo>
  {
    var byCategory := if category.Some? then OfCategory(history, category.value) else history;
    if level.Some? then OfLevel(byCategory, level.value) else byCategory
  }

  /** The entries of `s` that match both filters, in one pass. */
  function Where(s: seq<ErrorInfo>, category: Option<ErrorCategory>, level: Option<ErrorLevel>): seq<ErrorInfo>
  {
    if |s| == 0 then []
    else (if Matches(s[0], category, level) then [s[0]] else []) + Where(s[1..], category, level)
  }

  /** Keeping the category's entries and then the level's keeps the entries that match both. */
  lemma {:induction false} FilteredIsWhere(history: seq<ErrorInfo>, category: Option<ErrorCategory>, level: Option<ErrorLevel>)
    ensures Filtered(history, category, level) == Where(history, category, level)
  {
    if category.Some? {
      CategoryIsWhere(history, category.value);
      if level.Some? {
        LevelAfterCategory(history, category.value, level.value);
      }
    } else if level.Some? {
      LevelIsWhere(history, level.value);
    } else {
      NoFilterIsAll(history);
    }
  }

  lemma {:induction false} CategoryIsWhere(s: seq<ErrorInfo>, category: ErrorCategory)
    ensures OfCategory(s, category) == Where(s, Some(category), None)
    decreases |s|
  {
    if |s| > 0 {
      CategoryIsWhere(s[1..], category);
    }
  }

  lemma {:induction false} LevelIsWhere(s: seq<ErrorInfo>, level: ErrorLevel)
    ensures OfLevel(s, level) == Where(s, None, Some(level))
    decreases |s|
  {
    if |s| > 0 {
      LevelIsWhere(s[1..], level);
    }
  }

  lemma {:induction false} NoFilterIsAll(s: seq<ErrorInfo>)
    ensures Where(s, None, None) == s
    decreases |s|
  {
    if |s| > 0 {
      NoFilterIsAll(s[1..]);
      assert s == [s[0]] + s[1..];
    }
  }

  lemma {:induction false} LevelAfterCategory(s: seq<ErrorInfo>, category: ErrorCategory, level: ErrorLevel)
    ensures OfLevel(OfCategory(s, category), level) == Where(s, Some(category), Some(level))
    decreases |s|
  {
    if |s| > 0 {
      LevelAfterCategory(s[1..], category, level);
      var head := if s[0].category == category then [s[0]] else [];
      OfLevelAppend(head, OfCategory(s[1..], category), level);
    }
  }

  lemma {:induction false} OfLevelAppend(a: seq<ErrorInfo>, b: seq<ErrorInfo>, level: ErrorLevel)
    ensures OfLevel(a + b, level) == OfLevel(a, level) + OfLevel(b, level)
    decreases |a|
  {
    if |a| > 0 {
      assert (a + b)[1..] == a[1..] + b;
      OfLevelAppend(a[1..], b, level);
    } else {
      assert a + b == b;
    }
  }

  /** The filtered history holds each matching entry as often as the history does, and no other entry. */
  lemma {:induction false} WhereCounts(s: seq<ErrorInfo>, category: Option<ErrorCategory>, level: Option<ErrorLevel>)
    ensures forall e :: multiset(Where(s, category, level))[e] == if Matches(e, category, level) then multiset(s)[e] else 0
    decreases |s|
  {
    if |s| > 0 {
      WhereCounts(s[1..], category, level);
      assert s == [s[0]] + s[1..];
      assert multiset(s) == multiset{s[0]} + multiset(s[1..]);
    }
  }

  /** The filtered history lists its entries in the order the errors were handled. */
  lemma {:induction false} WhereInOrder(s: seq<ErrorInfo>, category: Option<ErrorCategory>, level: Option<ErrorLevel>)
    ensures Subsequence(Where(s, category, level), s)
    decreases |s|
  {
    if |s| > 0 {
      WhereInOrder(s[1..], category, level);
      var rest := Where(s[1..], category, level);
      if Matches(s[0], category, level) {
        assert ([s[0]] + rest)[1..] == rest;
      } else {
        assert Where(s, category, level) == rest;
      }
    } else {
      assert Where(s, category, level) == [];
    }
  }

  /**
   * `get_error_history(category, level)` holds each handled error that has the given
   * category and level as often as the history does, no other error, and lists them
   * in the order they were handled.
   */
  lemma {:induction false} FilteredMeaning(history: seq<ErrorInfo>, category: Option<ErrorCategory>, level: Option<ErrorLevel>)
    ensures forall e :: multiset(Filtered(history, category, level))[e]
                     == if Matches(e, category, level) then multiset(history)[e] else 0
    ensures Subsequence(Filtered(history, category, level), history)
  {
    FilteredIsWhere(history, category, level);
    WhereCounts(history, category, level);
    WhereInOrder(history, category, level);
  }

  // ---------------------------------------------------------------- the handler

  /** `ErrorHandler`. */
  class ErrorHandler {
    /** `_error_history`, oldest first. */
    var history: seq<ErrorInfo>
    /** `_recovery_handlers`, by error class name. */
    var handlers: map<string, Handler>
    /** The recovery calls made so far: the handler and the information it was passed. */
    ghost var recoveries: seq<(Handler, ErrorInfo)>

    constructor()
      ensures history == [] && handlers == map[] && recoveries == []
    {
      history, handlers := [], map[];
      recoveries := [];
    }

    /**
     * `handle_error`: records the error, with the class name as its type and `str(error)`
     * as its message, and calls the handler registered under that name if there is one.
     * `now` is the clock reading and `trace` the formatted traceback.
     */
    method HandleError(error: Raised, category: ErrorCategory, level: ErrorLevel, context: map<string, Json>,
                       now: Timestamp, trace: string)
      returns (info: ErrorInfo)
      modifies this
      ensures info.errorType == error.className && info.message == error.message
      ensures info.category == category && info.level == level && info.timestamp == now && info.context == context
      ensures info.traceback == Some(trace)
      ensures info.canRecover <==> error.className in old(handlers)
      ensures info.recoveryAction == Recovery(old(handlers), error.className)
      ensures history == old(history) + [info] && handlers == old(handlers)
      ensures recoveries == old(recoveries) + if info.canRecover then [(handlers[error.className], info)] else []
    {
      var canRecover := HasRecoveryHandler(error.className);
      info := ErrorInfo(error.className, error.message, category, level, now, context, Some(trace), canRecover, None);
      if info.canRecover {
        var action := GetRecoveryHandler(error.className);
        info := info.(recoveryAction := action);
      }
      history := history + [info];
      if info.canRecover {
        recoveries := recoveries + [(info.recoveryAction.value, info)];
      }
    }

    /** `register_recovery_handler`: a later registration under the same name replaces the earlier one. */
    method RegisterRecoveryHandler(errorType: string, handler: Handler)
      modifies this
      ensures handlers == old(handlers)[errorType := handler]
      ensures history == old(history) && recoveries == old(recoveries)
    {
      handlers := handlers[errorType := handler];
    }

    /** `_has_recovery_handler`. */
    method HasRecoveryHandler(errorType: string) returns (b: bool)
      ensures b <==> errorType in handlers
    {
      b := errorType in handlers;
    }

    /** `_get_recovery_handler`. */
    method GetRecoveryHandler(errorType: string) returns (h: Option<Handler>)
      ensures h == Recovery(handlers, errorType)
    {
      h := if errorType in handlers then Some(handlers[errorType]) else None;
    }

    /** `get_error_history(category, level)`. */
    method GetErrorHistory(category: Option<ErrorCategory>, level: Option<ErrorLevel>) returns (r: seq<ErrorInfo>)
      ensures r == Filtered(history, category, level)
    {
      r := history;
      if category.Some? {
        r := OfCategory(r, category.value);
      }
      if level.Some? {
        r := OfLevel(r, level.value);
      }
    }
  }

  /** Handling an error after registering a handler for its class recovers with that handler. */
  lemma {:induction false} RegisteredRecovers(handlers: map<string, Handler>, errorType: string, h: Handler, other: string)
    ensures Recovery(handlers[errorType := h], errorType) == Some(h)
    ensures other != errorType ==> Recovery(handlers[errorType := h], other) == Recovery(handlers, other)
  {
  }
}
