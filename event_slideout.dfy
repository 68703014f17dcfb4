/**
 * The event history panel: the shape of one history entry, the colour classes
 * given to levels and statuses, and which rows, placeholders and borders are
 * shown. Only the values the markup is computed from are modelled.
 */
module EventSlideout {
  import opened Wrappers
  import opened JsBuiltins

  /** An entry's status: a number (as the adapter produces) or a string. */
  datatype Status = Num(n: int) | Str(s: string)

  /** One entry of the history: `{id, level, rollbarItemUuid, status, timestamp}`. */
  datatype Event = Event(
    id: string,
    level: string,
    rollbarItemUuid: Option<string>,
    status: Status,
    timestamp: string)

  /** The badge colours the panel uses. */
  datatype Badge = Blue | Orange | Red | Purple | Gray | Green {

    /** The Tailwind classes of the badge. */
    function ClassName(): string {
      match this
      case Blue => "bg-[rgba(59,130,246,0.18)] text-[#3b82f6]"
      case Orange => "bg-[rgba(251,146,60,0.18)] text-[#fb923c]"
      case Red => "bg-[rgba(239,68,68,0.18)] text-[#ef4444]"
      case Purple => "bg-[rgba(168,85,247,0.18)] text-[#a855f7]"
      case Gray => "bg-[rgba(148,163,184,0.18)] text-[#94a3b8]"
      case Green => "bg-[rgba(16,185,129,0.18)] text-[#10b981]"
    }
  }

  /** `getLevelColor(level)`. */
  function LevelColor(level: string): (c: Badge)
    ensures level == "info" ==> c == Blue
    ensures level == "warning" ==> c == Orange
    ensures level == "error" ==> c == Red
    ensures level == "exception" ==> c == Purple
    ensures c == Gray <==> level !in {"info", "warning", "error", "exception"}
  {
    match level
    case "info" => Blue
    case "warning" => Orange
    case "error" => Red
    case "exception" => Purple
    case _ => Gray
  }

  /** The four named levels get four different class strings, none of them the default. */
  lemma LevelColorsDistinct(a: string, b: string)
    requires a in {"info", "warning", "error", "exception"}
    requires b in {"info", "warning", "error", "exception", "other"}
    requires a != b
    ensures LevelColor(a).ClassName() != LevelColor(b).ClassName()
  {
  }

  /** Whether `c` is an ASCII decimal digit. */
  predicate IsDigit(c: char) {
    '0' <= c <= '9'
  }

  /** The value of a string of decimal digits. */
  function DecimalValue(s: string): (v: nat)
    requires forall i :: 0 <= i < |s| ==> IsDigit(s[i])
  {
    if s == [] then 0 else 10 * DecimalValue(s[..|s| - 1]) + DigitValue(s[|s| - 1])
  }

  /** The value of one decimal digit. */
  function DigitValue(c: char): nat
    requires IsDigit(c)
  {
    match c
    case '0' => 0 case '1' => 1 case '2' => 2 case '3' => 3 case '4' => 4
    case '5' => 5 case '6' => 6 case '7' => 7 case '8' => 8 case _ => 9
  }

  /** A string of digits is its own trim, so `Number` reads it as its decimal value. */
  lemma {:induction false} NumberOfDigits(s: string)
    requires forall i :: 0 <= i < |s| ==> IsDigit(s[i])
    ensures NumberOf(s) == Some(DecimalValue(s))
  {
    if s != [] {
      assert !IsWhitespace(s[0]) && !IsWhitespace(s[|s| - 1]);
      assert LeadingWhitespace(s) == 0;
      assert TrailingWhitespace(s) == 0;
      assert Trim(s) == s;
    } else {
      assert Trim(s) == s;
    }
  }

  /**
   * `Number(s)` for the strings this model reads numerically: a blank string
   * is 0 and a (trimmed) run of decimal digits is its value; every other
   * string is taken to be NaN.
   */
  function NumberOf(s: string): (r: Option<int>)
    ensures AllWhitespace(s) ==> r == Some(0)
    ensures r.Some? ==> r.value >= 0
  {
    var t := Trim(s);
    if forall i :: 0 <= i < |t| ==> IsDigit(t[i]) then Some(DecimalValue(t)) else None
  }

  /** The class of `getStatusColor` for a status that is a number. */
  function NumberColor(n: int): Option<Badge> {
    if 200 <= n < 300 then Some(Green) else if n >= 400 then Some(Red) else None
  }

  /** The `switch` of `getStatusColor` on the status string. */
  function StringColor(s: string): Badge {
    if s == "sent" then Green
    else if s == "queued" then Orange
    else if s == "error" then Red
    else Gray
  }

  /** `Number(status)` for either kind of status; `None` is NaN. */
  function NumericValue(status: Status): Option<int> {
    match status
    case Num(n) => Some(n)
    case Str(s) => NumberOf(s)
  }

  /** `getStatusColor(status)`: the numeric ranges first, then the string cases. */
  function StatusColor(status: Status): (c: Badge)
    ensures status.Num? && 200 <= status.n < 300 ==> c == Green
    ensures status.Num? && status.n >= 400 ==> c == Red
    ensures status.Num? && (status.n < 200 || 300 <= status.n < 400) ==> c == Gray
    ensures status.Str? && NumberOf(status.s).None? ==> c == StringColor(status.s)
  {
    var numeric := NumericValue(status);
    if numeric.Some? && NumberColor(numeric.value).Some? then NumberColor(numeric.value).value
    else if status.Str? then StringColor(status.s)
    else Gray
  }

  /** A status string of decimal digits is coloured exactly like the number it spells. */
  lemma DigitStringStatus(s: string)
    requires s != [] && forall i :: 0 <= i < |s| ==> IsDigit(s[i])
    ensures StatusColor(Str(s)) == StatusColor(Num(DecimalValue(s)))
  {
    NumberOfDigits(s);
    assert NumericValue(Str(s)) == NumericValue(Num(DecimalValue(s)));
    if NumberColor(DecimalValue(s)).None? {
      assert s != "sent" && s != "queued" && s != "error" by { assert IsDigit(s[0]); }
      assert StringColor(s) == Gray;
    }
  }

  /** A string starting with a character that is neither whitespace nor a digit reads as NaN. */
  lemma NotANumber(s: string)
    requires s != [] && !IsWhitespace(s[0]) && !IsDigit(s[0])
    ensures NumberOf(s) == None
  {
  }

  /** A status word goes to the `switch`: "sent" is green, "queued" orange, "error" red, any other gray. */
  lemma WordStatus(s: string)
    requires s != [] && !IsWhitespace(s[0]) && !IsDigit(s[0])
    ensures StatusColor(Str(s)) == (if s == "sent" then Green
                                    else if s == "queued" then Orange
                                    else if s == "error" then Red
                                    else Gray)
  {
    NotANumber(s);
  }

  // ---------------------------------------------------------------------
  // The table

  /** What one table row is computed from. */
  datatype Row = Row(
    level: string,
    levelClass: Badge,
    uuidText: string,
    status: Status,
    statusClass: Badge,
    timestamp: string,
    bottomBorder: bool)

  /** `event.rollbarItemUuid || '—'` */
  function UuidText(uuid: Option<string>): (t: string)
    ensures Truthy(uuid) ==> t == uuid.value
    ensures !Truthy(uuid) ==> t == "—"
  {
    Or(uuid, Some("—")).value
  }

  /** The row of `events[i]`: every row but the last has a bottom border. */
  function RowOf(events: seq<Event>, i: nat): Row
    requires i < |events|
  {
    var e := events[i];
    Row(e.level, LevelColor(e.level), UuidText(e.rollbarItemUuid),
        e.status, StatusColor(e.status), e.timestamp, i != |events| - 1)
  }

  /** What the panel shows. */
  datatype Panel = Closed | NoEventsYet | Table(rows: seq<Row>)

  /** The slideout for `isOpen` and `events`. */
  function View(isOpen: bool, events: seq<Event>): (p: Panel)
    ensures !isOpen <==> p == Closed
    ensures p == NoEventsYet <==> isOpen && events == []
    ensures p.Table? ==> |p.rows| == |events|
    ensures p.Table? ==> forall i :: 0 <= i < |events| ==> p.rows[i] == RowOf(events, i)
  {
    if !isOpen then Closed
    else if events == [] then NoEventsYet
    else
      var rows := seq(|events|, i requires 0 <= i < |events| => RowOf(events, i));
      Table(rows)
  }

  /**
   * In an open panel with events, row `i` shows event `i` in order, its uuid
   * or the dash placeholder, and the bottom border exactly when it is not last.
   */
  lemma TableRows(events: seq<Event>, i: nat)
    requires i < |events|
    ensures View(true, events).Table?
    ensures var r := View(true, events).rows[i];
            && r.level == events[i].level
            && r.levelClass == LevelColor(events[i].level)
            && (r.uuidText == "—" <==> !Truthy(events[i].rollbarItemUuid) || events[i].rollbarItemUuid == Some("—"))
            && r.statusClass == StatusColor(events[i].status)
            && (r.bottomBorder <==> i < |events| - 1)
  {
  }
}
