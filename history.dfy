/**
 * The log row and the session-history entry built from one triage result
 * (`save_and_log`, app.py:99-121), and the session state they are added to
 * and cleared from (`admin_clear_all`, app.py:124-141).
 */
module History {
  import opened Wrappers
  import opened Triage

  /** One clock reading, formatted by the caller as `%Y-%m-%d` and `%H:%M:%S`. */
  datatype Instant = Instant(date: string, time: string)

  /** A row of the prediction log (its seven columns). */
  datatype LogRow = LogRow(
    timestamp: string,
    subject: string,
    ticketType: string,
    priority: string,
    queue: string,
    autoQueue: bool,
    action: string)

  /** An entry of the session history table. */
  datatype HistoryEntry = HistoryEntry(
    time: string,
    subject: string,
    ticketType: string,
    priority: string,
    queue: string,
    action: string)

  const LogSubjectLimit: nat := 100
  const HistorySubjectLimit: nat := 45
  const Ellipsis: string := "..."
  /** The em dash the source shows for a missing value. */
  const Missing: string := "\U{2014}"

  /** `now.strftime("%Y-%m-%d %H:%M:%S")`. */
  function Timestamp(now: Instant): string {
    now.date + " " + now.time
  }

  /** Python's `a or b` where `a` is an optional string. */
  function OrElse(o: Option<string>, fallback: string): string {
    if Truthy(o) then o.value else fallback
  }

  /** Python's `s[:n]`: the longest prefix of `s` with at most `n` characters. */
  function Prefix(s: string, n: nat): (r: string)
    ensures |r| == if |s| <= n then |s| else n
    ensures r == s[..|r|]
  {
    if |s| <= n then s else s[..n]
  }

  /** `subject[:45] + "..." if len(subject) > 45 else subject` (app.py:116). */
  function ShortSubject(subject: string): (r: string)
    ensures |subject| <= HistorySubjectLimit ==> r == subject
    ensures |subject| > HistorySubjectLimit ==>
      |r| == HistorySubjectLimit + |Ellipsis| && r[..HistorySubjectLimit] == subject[..HistorySubjectLimit]
      && r[HistorySubjectLimit..] == Ellipsis
  {
    if |subject| > HistorySubjectLimit then Prefix(subject, HistorySubjectLimit) + Ellipsis else subject
  }

  /** `str.upper` on one character, restricted to ASCII letters. */
  function UpperChar(c: char): char {
    if 'a' <= c <= 'z' then (c as int - 32) as char else c
  }

  function Upper(s: string): (r: string)
    ensures |r| == |s| && forall i :: 0 <= i < |s| ==> r[i] == UpperChar(s[i])
  {
    seq(|s|, i requires 0 <= i < |s| => UpperChar(s[i]))
  }

  /** `sep` occurs in `s` at position `i`. */
  predicate OccursAt(s: string, sep: string, i: nat) {
    i + |sep| <= |s| && s[i..i + |sep|] == sep
  }

  /**
   * `s.split(sep)[0]`: the text before the first occurrence of `sep`, or all
   * of `s` when `sep` does not occur.
   */
  function BeforeSep(s: string, sep: string): (r: string)
    requires sep != []
    ensures |r| <= |s| && r == s[..|r|]
    ensures forall i :: 0 <= i < |r| ==> !OccursAt(s, sep, i)
    ensures |r| < |s| ==> OccursAt(s, sep, |r|)
    decreases |s|
  {
    if |s| < |sep| then s
    else if s[..|sep|] == sep then []
    else
      assert forall i :: 1 <= i <= |s| ==> (OccursAt(s, sep, i) <==> OccursAt(s[1..], sep, i - 1));
      [s[0]] + BeforeSep(s[1..], sep)
  }

  /** The log row `new_row` of app.py:102-110. */
  function NewRow(now: Instant, subject: string, r: TriageResult): LogRow {
    LogRow(
      Timestamp(now),
      Prefix(subject, LogSubjectLimit),
      r.ticketType,
      OrElse(r.autoSetPriority, r.predictedPriority),
      OrElse(r.autoRouteTo, r.predictedQueue),
      Truthy(r.autoRouteTo),
      ActionText(r.finalAction))
  }

  /** The history entry of app.py:114-121. */
  function NewEntry(now: Instant, subject: string, r: TriageResult): HistoryEntry {
    HistoryEntry(
      now.time,
      ShortSubject(subject),
      r.ticketType,
      Upper(OrElse(r.autoSetPriority, OrElse(Some(r.predictedPriority), Missing))),
      OrElse(r.autoRouteTo, r.predictedQueue),
      BeforeSep(ActionText(r.finalAction), Arrow))
  }

  /** The row `admin_clear_all` writes before it wipes the log (app.py:127-135). */
  function AdminClearRow(now: Instant): LogRow {
    LogRow(Timestamp(now), "ADMIN CLEAR", Missing, Missing, Missing, false, "All data cleared by admin")
  }

  // ---------------------------------------------------------------------------
  // Properties of the projections

  /**
   * The log row resolves each auto value against its prediction: the auto
   * value when it is set, the prediction otherwise; `auto_queue` records
   * whether a queue was auto-applied; the subject is cut to 100 characters.
   */
  lemma LogRowResolves(now: Instant, subject: string, r: TriageResult)
    ensures var row := NewRow(now, subject, r);
      && row.timestamp == now.date + " " + now.time
      && |row.subject| <= LogSubjectLimit && row.subject == subject[..|row.subject|]
      && (|subject| <= LogSubjectLimit ==> row.subject == subject)
      && (|subject| > LogSubjectLimit ==> row.subject == subject[..LogSubjectLimit])
      && row.ticketType == r.ticketType
      && row.priority == (if Truthy(r.autoSetPriority) then r.autoSetPriority.value else r.predictedPriority)
      && row.queue == (if Truthy(r.autoRouteTo) then r.autoRouteTo.value else r.predictedQueue)
      && (row.autoQueue <==> r.autoRouteTo.Some? && r.autoRouteTo.value != "")
      && row.action == ActionText(r.finalAction)
  {
  }

  /**
   * For a result of `predict_ticket` the resolved priority and queue are the
   * predicted ones, whether or not they were auto-applied, and `auto_queue`
   * is set exactly when the queue confidence reached its threshold and the
   * queue name is not empty.
   */
  lemma LoggedValuesArePredictions(m: Models, now: Instant, subject: string, body: string,
                                   hint: Option<string>, th: Thresholds)
    ensures var r := PredictTicket(m, subject, body, hint, th);
      var row := NewRow(now, subject, r);
      && row.priority == r.predictedPriority
      && row.queue == r.predictedQueue
      && (row.autoQueue <==> r.queueConfidence >= th.queue && r.predictedQueue != "")
  {
  }

  /** Splitting at the arrow gives back a text that has no arrow character. */
  lemma BeforeArrow(p: string, q: string)
    requires '\U{2192}' !in p
    ensures BeforeSep(p + Arrow + q, Arrow) == p
  {
    var s := p + Arrow + q;
    forall i | 0 <= i < |p| ensures !OccursAt(s, Arrow, i) {
      if i + 1 < |p| {
        assert s[i + 1] == p[i + 1] && p[i + 1] in p;
      } else {
        assert s[i + 1] == Arrow[0];
      }
    }
    assert OccursAt(s, Arrow, |p|) by { assert s[|p|..|p| + |Arrow|] == Arrow; }
    assert s[..|p|] == p;
  }

  /** The text before the arrow of an action's text is the action's name. */
  lemma ActionNameBeforeArrow(a: FinalAction)
    ensures BeforeSep(ActionText(a), Arrow) == ActionName(a)
  {
    assert '\U{2192}' !in ActionName(a);
    BeforeArrow(ActionName(a), ActionHint(a));
  }

  /**
   * The history entry shows the subject cut to 45 characters plus "..." when
   * longer, the action's name without its explanation, and the upper-cased
   * resolved priority, or a dash when there is none.
   */
  lemma HistoryEntryShows(now: Instant, subject: string, r: TriageResult)
    ensures var e := NewEntry(now, subject, r);
      && e.time == now.time
      && (|subject| <= HistorySubjectLimit ==> e.subject == subject)
      && (|subject| > HistorySubjectLimit ==> e.subject == subject[..HistorySubjectLimit] + Ellipsis)
      && e.ticketType == r.ticketType
      && e.action == ActionName(r.finalAction)
      && e.queue == NewRow(now, subject, r).queue
      && (Truthy(r.autoSetPriority) ==> e.priority == Upper(r.autoSetPriority.value))
      && (!Truthy(r.autoSetPriority) && r.predictedPriority != "" ==> e.priority == Upper(r.predictedPriority))
      && (!Truthy(r.autoSetPriority) && r.predictedPriority == "" ==> e.priority == Missing)
  {
    ActionNameBeforeArrow(r.finalAction);
    var e := NewEntry(now, subject, r);
    if |subject| > HistorySubjectLimit {
      assert e.subject == e.subject[..HistorySubjectLimit] + e.subject[HistorySubjectLimit..];
    }
    if !Truthy(r.autoSetPriority) && r.predictedPriority == "" {
      assert Upper(Missing) == Missing;
    }
  }

  // ---------------------------------------------------------------------------
  // Session state

  /** The session's history list and the rows of the prediction log. */
  class Session {
    var history: seq<HistoryEntry>
    var log: seq<LogRow>

    /** A new session starts with an empty history (app.py:36-37); the log is what is on disk. */
    constructor(stored: seq<LogRow>)
      ensures history == [] && log == stored
    {
      history := [];
      log := stored;
    }

    /** `save_and_log`: one row appended to the log, one entry to the history, nothing else changes. */
    method SaveAndLog(now: Instant, subject: string, result: TriageResult)
      modifies this
      ensures log == old(log) + [NewRow(now, subject, result)]
      ensures history == old(history) + [NewEntry(now, subject, result)]
    {
      log := log + [NewRow(now, subject, result)];
      history := history + [NewEntry(now, subject, result)];
    }

    /** `admin_clear_all`: the clear is written to the log, then log and history are wiped. */
    method AdminClearAll(now: Instant)
      modifies this
      ensures log == [] && history == []
    {
      log := [AdminClearRow(now)];
      log := [];
      history := [];
    }
  }
}
