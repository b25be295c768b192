/** The YouTube player API's debug state: a status, attempt counters, the
    last error, a log capped at 100 entries and the latest diagnostic checks,
    plus the listeners told of every change. A listener is known by an id;
    every notification a listener receives is recorded, with the snapshot it
    was given, in `delivered`. The browser checks and the clock are inputs. */
module YouTubeDebug {
  import opened Wrappers
  import opened Text

  datatype Status = Idle | Loading | Loaded | Failed

  datatype Level = Info | Warn | Error

  datatype LogEntry = LogEntry(timestamp: int, level: Level, message: string)

  /** What the last diagnostic run saw; `networkBlocked` is unknown until a connectivity test ran. */
  datatype Checks = Checks(
    windowYT: bool, windowYTPlayer: bool, scriptInDOM: bool, scriptLoaded: bool,
    callbackDefined: bool, networkBlocked: Option<bool>)

  datatype DebugInfo = DebugInfo(
    status: Status, attempts: int, maxAttempts: int, lastError: Option<string>,
    logs: seq<LogEntry>, checks: Checks)

  const MAX_LOGS: nat := 100
  const MAX_ATTEMPTS: int := 3
  const INITIAL_CHECKS := Checks(false, false, false, false, false, None)
  const INITIAL_INFO := DebugInfo(Idle, 0, MAX_ATTEMPTS, None, [], INITIAL_CHECKS)

  type ListenerId = nat

  /** The log after `push` and, past 100 entries, one `shift`: the entry is
      last, and before it come the older entries in order, less the oldest
      one when the log was full. */
  function Appended(logs: seq<LogEntry>, entry: LogEntry): (r: seq<LogEntry>)
    ensures |logs| <= MAX_LOGS ==> |r| <= MAX_LOGS
    ensures |logs| < MAX_LOGS ==> r == logs + [entry]
    ensures |logs| >= MAX_LOGS ==> r == logs[1..] + [entry]
  {
    var pushed := logs + [entry];
    if |pushed| > MAX_LOGS then
      assert pushed[1..] == logs[1..] + [entry];
      pushed[1..]
    else pushed
  }

  /** What `notifyListeners` hands out: each listener, in order, with the same snapshot. */
  function Deliveries(listeners: seq<ListenerId>, info: DebugInfo): (r: seq<(ListenerId, DebugInfo)>)
    ensures |r| == |listeners|
    ensures forall k :: 0 <= k < |r| ==> r[k] == (listeners[k], info)
  {
    if listeners == [] then [] else Deliveries(listeners[..|listeners| - 1], info) + [(listeners[|listeners| - 1], info)]
  }

  /** `indexOf`: the first position of `x`, or -1. */
  function IndexOf(s: seq<ListenerId>, x: ListenerId): (i: int)
    ensures -1 <= i < |s|
    ensures i == -1 <==> x !in s
    ensures i >= 0 ==> s[i] == x && x !in s[..i]
  {
    if s == [] then -1
    else if s[0] == x then 0
    else
      var j := IndexOf(s[1..], x);
      assert j >= 0 ==> s[1..][..j] == s[1..j + 1];
      if j == -1 then -1 else j + 1
  }

  /** The list after the unsubscribe closure: the first occurrence of `x` spliced out. */
  function RemoveFirst(s: seq<ListenerId>, x: ListenerId): (r: seq<ListenerId>)
    ensures x !in s ==> r == s
    ensures x in s ==> r == s[..IndexOf(s, x)] + s[IndexOf(s, x) + 1..]
  {
    var i := IndexOf(s, x);
    if i == -1 then s else s[..i] + s[i + 1..]
  }

  /** Unsubscribing takes away exactly one occurrence and leaves every other
      listener, in order. */
  lemma RemoveFirstRemovesOne(s: seq<ListenerId>, x: ListenerId)
    ensures multiset(RemoveFirst(s, x)) == multiset(s) - multiset{x}
  {
    if x in s {
      var i := IndexOf(s, x);
      assert s == s[..i] + [s[i]] + s[i + 1..];
      assert multiset(s) == multiset(s[..i]) + multiset{x} + multiset(s[i + 1..]);
    } else {
      assert multiset(s)[x] == 0;
    }
  }

  class DebugLog {
    var info: DebugInfo
    var listeners: seq<ListenerId>
    var delivered: seq<(ListenerId, DebugInfo)>

    predicate Valid()
      reads this
    {
      |info.logs| <= MAX_LOGS && info.maxAttempts == MAX_ATTEMPTS
    }

    constructor()
      ensures Valid()
      ensures info == INITIAL_INFO && listeners == [] && delivered == []
    {
      info := INITIAL_INFO;
      listeners := [];
      delivered := [];
    }

    /** `getDebugInfo`: a copy of the current state. */
    function GetDebugInfo(): (r: DebugInfo)
      reads this
      ensures Valid() ==> |r.logs| <= MAX_LOGS
    {
      info
    }

    /** `notifyListeners`: every listener, in subscription order, gets one snapshot. */
    method NotifyListeners()
      modifies this
      ensures info == old(info) && listeners == old(listeners)
      ensures delivered == old(delivered) + Deliveries(listeners, info)
    {
      for i := 0 to |listeners|
        invariant info == old(info) && listeners == old(listeners)
        invariant delivered == old(delivered) + Deliveries(listeners[..i], info)
      {
        assert listeners[..i + 1][..i] == listeners[..i];
        delivered := delivered + [(listeners[i], info)];
      }
      assert listeners[..|listeners|] == listeners;
    }

    /** `subscribeToDebugInfo`: the listener is appended and is sent the
        current state at once. */
    method Subscribe(listener: ListenerId)
      requires Valid()
      modifies this
      ensures Valid()
      ensures info == old(info)
      ensures listeners == old(listeners) + [listener]
      ensures delivered == old(delivered) + [(listener, info)]
    {
      listeners := listeners + [listener];
      delivered := delivered + [(listener, info)];
    }

    /** The unsubscribe closure `subscribeToDebugInfo` returns. */
    method Unsubscribe(listener: ListenerId)
      requires Valid()
      modifies this
      ensures Valid()
      ensures info == old(info) && delivered == old(delivered)
      ensures listeners == RemoveFirst(old(listeners), listener)
    {
      var index := IndexOf(listeners, listener);
      if index > -1 {
        listeners := listeners[..index] + listeners[index + 1..];
      }
    }

    /** `logDebug`: the entry goes last, the oldest entry is dropped past 100,
        and the listeners are told. */
    method LogDebug(level: Level, message: string, now: int)
      requires Valid()
      modifies this
      ensures Valid()
      ensures info == old(info).(logs := Appended(old(info).logs, LogEntry(now, level, message)))
      ensures listeners == old(listeners)
      ensures delivered == old(delivered) + Deliveries(listeners, info)
    {
      var logs := info.logs + [LogEntry(now, level, message)];
      if |logs| > MAX_LOGS {
        logs := logs[1..];
      }
      info := info.(logs := logs);
      NotifyListeners();
    }

    /** `updateDebugStatus`: the status is set; the last error only when an
        error text is given and is not empty. */
    method UpdateDebugStatus(status: Status, error: Option<string>)
      requires Valid()
      modifies this
      ensures Valid()
      ensures info.status == status
      ensures info.lastError == if error.Some? && error.value != "" then error else old(info).lastError
      ensures info == old(info).(status := info.status, lastError := info.lastError)
      ensures listeners == old(listeners)
      ensures delivered == old(delivered) + Deliveries(listeners, info)
    {
      var lastError := info.lastError;
      if error.Some? && error.value != "" {
        lastError := error;
      }
      info := info.(status := status, lastError := lastError);
      NotifyListeners();
    }

    /** `updateAttempts`. */
    method UpdateAttempts(count: int)
      requires Valid()
      modifies this
      ensures Valid()
      ensures info == old(info).(attempts := count)
      ensures listeners == old(listeners)
      ensures delivered == old(delivered) + Deliveries(listeners, info)
    {
      info := info.(attempts := count);
      NotifyListeners();
    }

    /** `resetDebugInfo`: back to the initial state; the listeners stay. */
    method ResetDebugInfo()
      requires Valid()
      modifies this
      ensures Valid()
      ensures info == INITIAL_INFO
      ensures listeners == old(listeners)
      ensures delivered == old(delivered) + Deliveries(listeners, INITIAL_INFO)
    {
      info := INITIAL_INFO;
      NotifyListeners();
    }
  }

  /** The last `n` elements, or all of them when there are fewer (`slice(-n)`). */
  function Last<T>(s: seq<T>, n: nat): (r: seq<T>)
    ensures |r| <= n && |r| <= |s|
    ensures r == s[|s| - |r|..]
    ensures |s| <= n ==> r == s
    ensures |s| >= n ==> |r| == n
  {
    if |s| <= n then s else s[|s| - n..]
  }

  /** The hints of the report's recommendation section. */
  datatype Hint = Blocked | InDomNotLoaded | NotInDom | NoWindowYT

  function HintText(h: Hint): string {
    match h
    case Blocked => "\U{26A0}\U{FE0F}  YouTube appears to be blocked. Check firewall/network settings."
    case InDomNotLoaded => "\U{26A0}\U{FE0F}  Script in DOM but not loaded. Possible ad blocker or CSP issue."
    case NotInDom => "\U{26A0}\U{FE0F}  Script not in DOM. Check if script injection is working."
    case NoWindowYT => "\U{26A0}\U{FE0F}  Script loaded but window.YT not available. Possible JavaScript error."
  }

  /** The hints, each present exactly when its condition holds, in this order. */
  function Recommendations(checks: Checks): (hints: seq<Hint>)
    ensures Blocked in hints <==> checks.networkBlocked == Some(true)
    ensures InDomNotLoaded in hints <==> checks.scriptInDOM && !checks.scriptLoaded
    ensures NotInDom in hints <==> !checks.scriptInDOM
    ensures NoWindowYT in hints <==> checks.scriptLoaded && !checks.windowYT
    ensures forall p, q :: 0 <= p < q < |hints| ==> hints[p] != hints[q]
  {
    (if checks.networkBlocked == Some(true) then [Blocked] else []) +
    (if checks.scriptInDOM && !checks.scriptLoaded then [InDomNotLoaded] else []) +
    (if !checks.scriptInDOM then [NotInDom] else []) +
    (if checks.scriptLoaded && !checks.windowYT then [NoWindowYT] else [])
  }

  function YesNo(b: bool): string { if b then "YES" else "NO" }

  function LevelText(level: Level): string {
    match level
    case Info => "INFO"
    case Warn => "WARN"
    case Error => "ERROR"
  }

  function StatusText(status: Status): string {
    match status
    case Idle => "idle"
    case Loading => "loading"
    case Loaded => "loaded"
    case Failed => "error"
  }

  /** One log line; `formatTime` stands for `toLocaleTimeString`. */
  function LogLine(entry: LogEntry, formatTime: int -> string): string {
    "[" + formatTime(entry.timestamp) + "] [" + LevelText(entry.level) + "] " + entry.message
  }

  function LogLines(logs: seq<LogEntry>, formatTime: int -> string): (r: seq<string>)
    ensures |r| == |logs|
    ensures forall k :: 0 <= k < |logs| ==> r[k] == LogLine(logs[k], formatTime)
  {
    if logs == [] then [] else [LogLine(logs[0], formatTime)] + LogLines(logs[1..], formatTime)
  }

  function HintLines(hints: seq<Hint>): (r: seq<string>)
    ensures |r| == |hints|
    ensures forall k :: 0 <= k < |hints| ==> r[k] == HintText(hints[k])
  {
    if hints == [] then [] else [HintText(hints[0])] + HintLines(hints[1..])
  }

  const HEADER_LINES: nat := 12

  const REPORT_TITLE := "=== YouTube API Diagnostic Report ==="

  function HeaderLines(info: DebugInfo, checks: Checks): (r: seq<string>)
    ensures |r| == HEADER_LINES
    ensures r[0] == REPORT_TITLE
  {
    var blocked := if checks.networkBlocked.None? then "UNKNOWN"
                   else if checks.networkBlocked.value then "YES (BLOCKED)" else "NO";
    var lastError := if info.lastError.Some? && info.lastError.value != "" then info.lastError.value else "None";
    [ REPORT_TITLE,
      "Status: " + StatusText(info.status),
      "Attempts: " + IntToString(info.attempts) + "/" + IntToString(info.maxAttempts),
      "Last Error: " + lastError,
      "",
      "--- Checks ---",
      "\U{2713} window.YT exists: " + YesNo(checks.windowYT),
      "\U{2713} window.YT.Player exists: " + YesNo(checks.windowYTPlayer),
      "\U{2713} Script in DOM: " + YesNo(checks.scriptInDOM),
      "\U{2713} Script loaded: " + YesNo(checks.scriptLoaded),
      "\U{2713} Callback defined: " + YesNo(checks.callbackDefined),
      "\U{2713} Network blocked: " + blocked ]
  }

  /** The middle and the end of a three-part concatenation. */
  lemma PartsOfConcat<T>(a: seq<T>, b: seq<T>, c: seq<T>)
    ensures (a + b + c)[..|a|] == a
    ensures (a + b + c)[|a|..|a| + |b|] == b
    ensures (a + b + c)[|a| + |b|..] == c
  {
  }

  /** The lines of `generateDiagnosticReport`, before they are joined with
      newlines: the header, the ten most recent log lines, then the hints. */
  function DiagnosticLines(info: DebugInfo, checks: Checks, formatTime: int -> string): (lines: seq<string>)
    ensures var recent := Last(info.logs, 10);
      && |lines| == HEADER_LINES + 4 + |recent| + |Recommendations(checks)|
      && lines[..HEADER_LINES + 2] == HeaderLines(info, checks) + ["", "--- Recent Logs ---"]
      && lines[HEADER_LINES + 2..HEADER_LINES + 2 + |recent|] == LogLines(recent, formatTime)
      && lines[HEADER_LINES + 2 + |recent|..] == ["", "--- Recommendations ---"] + HintLines(Recommendations(checks))
  {
    var head := HeaderLines(info, checks) + ["", "--- Recent Logs ---"];
    var logLines := LogLines(Last(info.logs, 10), formatTime);
    var tail := ["", "--- Recommendations ---"] + HintLines(Recommendations(checks));
    PartsOfConcat(head, logLines, tail);
    head + logLines + tail
  }

  /** `lines.join('\n')`: the report opens with its title line. */
  function GenerateDiagnosticReport(info: DebugInfo, checks: Checks, formatTime: int -> string): (report: string)
    ensures |REPORT_TITLE| <= |report| && report[..|REPORT_TITLE|] == REPORT_TITLE
  {
    var lines := DiagnosticLines(info, checks, formatTime);
    assert lines[0] == lines[..HEADER_LINES + 2][0] == REPORT_TITLE;
    JoinStartsWithFirst(lines, "\n");
    Join(lines, "\n")
  }

  /** However long the log, the report shows at most ten entries, the newest ones. */
  lemma ReportShowsTenNewest(info: DebugInfo, checks: Checks, formatTime: int -> string)
    requires |info.logs| >= 10
    ensures DiagnosticLines(info, checks, formatTime)[HEADER_LINES + 2..HEADER_LINES + 12]
         == LogLines(info.logs[|info.logs| - 10..], formatTime)
  {
  }

  /** A fresh page, with no script injected, gets exactly the injection hint. */
  lemma InitialReportHint()
    ensures Recommendations(INITIAL_CHECKS) == [NotInDom]
  {
  }
}
