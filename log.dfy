/** The retention helpers and the console filter of the logging class
    (Log.py): a retention string such as "30 days" becomes a number of days,
    the error log keeps twice as long as the other logs, and in production
    the console drops DEBUG records. */
module Log {
  import opened PyValues

  /** A time unit of a retention string, in the order the helpers test for it. */
  datatype Unit = Days | Months | Weeks

  /** Python's `str.isspace` for one character. */
  predicate IsSpace(c: char) {
    || c == ' ' || '\U{9}' <= c <= '\U{d}' || '\U{1c}' <= c <= '\U{1f}' || c == '\U{85}' || c == '\U{a0}'
    || c == '\U{1680}' || '\U{2000}' <= c <= '\U{200a}' || c == '\U{2028}' || c == '\U{2029}'
    || c == '\U{202f}' || c == '\U{205f}' || c == '\U{3000}'
  }

  predicate IsDigit(c: char) { '0' <= c <= '9' }

  predicate AllDigits(s: string) { forall i :: 0 <= i < |s| ==> IsDigit(s[i]) }

  /** Whether `sub` occurs in `s`: Python's `sub in s`. */
  predicate Contains(s: string, sub: string)
    decreases |s|
  {
    |sub| <= |s| && (s[..|sub|] == sub || Contains(s[1..], sub))
  }

  /** The characters of `s` up to its first whitespace. */
  function Word(s: string): (w: string)
    ensures |w| <= |s| && w == s[..|w|]
    ensures forall i :: 0 <= i < |w| ==> !IsSpace(w[i])
    decreases |s|
  {
    if s == [] || IsSpace(s[0]) then [] else [s[0]] + Word(s[1..])
  }

  /** `s.split()[0]`: the first whitespace-separated token, `None` when
      there is none (Python raises `IndexError`). */
  function FirstToken(s: string): (t: Option<string>)
    ensures t.Some? ==> t.value != []
    decreases |s|
  {
    if s == [] then None else if IsSpace(s[0]) then FirstToken(s[1..]) else Some(Word(s))
  }

  /** The value of a run of decimal digits. */
  function DigitsValue(s: string): (n: nat)
    requires AllDigits(s)
    decreases |s|
  {
    if s == [] then 0 else 10 * DigitsValue(s[..|s| - 1]) + (s[|s| - 1] - '0') as nat
  }

  /** Python's `int(token)` for a token without whitespace: an optional sign
      and at least one decimal digit; anything else raises `ValueError`. */
  function ParseInt(t: string): Option<int> {
    if |t| >= 1 && (t[0] == '-' || t[0] == '+') then
      if |t| >= 2 && AllDigits(t[1..]) then
        var v: int := DigitsValue(t[1..]);
        Some(if t[0] == '-' then -v else v)
      else None
    else if t != [] && AllDigits(t) then Some(DigitsValue(t))
    else None
  }

  /** `int(s.split()[0])`, `None` where Python raises. */
  function FirstInt(s: string): Option<int> {
    var t := FirstToken(s);
    if t.None? then None else ParseInt(t.value)
  }

  /** `str(n)` for a natural number: its decimal digits, no leading zero. */
  function NatToString(n: nat): (s: string)
    ensures s != [] && AllDigits(s)
  {
    var digit := ['0' + (n % 10) as char];
    if n < 10 then digit else NatToString(n / 10) + digit
  }

  /** `str(n)`, with a minus sign for a negative number. */
  function IntToString(n: int): (s: string)
    ensures s != [] && forall i :: 0 <= i < |s| ==> s[i] == '-' || IsDigit(s[i])
  {
    if n < 0 then "-" + NatToString(-n) else NatToString(n)
  }

  /** Reading back the digits of a number gives the number. */
  lemma {:induction false} NatToStringRoundTrip(n: nat)
    ensures DigitsValue(NatToString(n)) == n
  {
    var s := NatToString(n);
    if n >= 10 {
      NatToStringRoundTrip(n / 10);
      assert s[..|s| - 1] == NatToString(n / 10);
    }
  }

  /** `int(str(n)) == n`. */
  lemma IntToStringRoundTrip(n: int)
    ensures ParseInt(IntToString(n)) == Some(n)
  {
    var s := IntToString(n);
    if n < 0 {
      NatToStringRoundTrip(-n);
      assert s[1..] == NatToString(-n);
    } else {
      NatToStringRoundTrip(n);
    }
  }

  /** The unit of a retention string: "day" is looked for first, then
      "month", then "week", anywhere in the string. */
  function UnitOf(r: string): Option<Unit> {
    if Contains(r, "day") then Some(Days)
    else if Contains(r, "month") then Some(Months)
    else if Contains(r, "week") then Some(Weeks)
    else None
  }

  function DaysPer(u: Unit): int {
    match u
    case Days => 1
    case Months => 30
    case Weeks => 7
  }

  function UnitName(u: Unit): string {
    match u
    case Days => "days"
    case Months => "months"
    case Weeks => "weeks"
  }

  /** `_parse_retention` (Log.py lines 90-105): the leading count times the
      days of the unit (a month is 30 days); 30 when no unit is found or the
      first token is not an integer. */
  function ParseRetention(r: string): (days: int)
    ensures UnitOf(r).None? || FirstInt(r).None? ==> days == 30
    ensures UnitOf(r).Some? && FirstInt(r).Some? ==> days == FirstInt(r).value * DaysPer(UnitOf(r).value)
  {
    var u, n := UnitOf(r), FirstInt(r);
    if u.None? || n.None? then 30 else n.value * DaysPer(u.value)
  }

  /** `_get_extended_retention` (Log.py lines 184-199): the count doubled in
      the same unit, or "60 days" when no unit is found or the first token is
      not an integer. */
  function ExtendedRetention(r: string): (e: string)
    ensures UnitOf(r).None? || FirstInt(r).None? ==> e == "60 days"
    ensures UnitOf(r).Some? && FirstInt(r).Some? ==>
              e == IntToString(2 * FirstInt(r).value) + " " + UnitName(UnitOf(r).value)
  {
    var u, n := UnitOf(r), FirstInt(r);
    if u.None? || n.None? then "60 days" else IntToString(2 * n.value) + " " + UnitName(u.value)
  }

  /** A string none of whose characters starts `sub` holds no occurrence of
      it, so such a prefix does not change what `s` contains. */
  lemma {:induction false} ContainsAfterPrefix(p: string, t: string, sub: string)
    requires sub != [] && forall i :: 0 <= i < |p| ==> p[i] != sub[0]
    ensures Contains(p + t, sub) == Contains(t, sub)
    decreases |p|
  {
    if p == [] {
      assert p + t == t;
    } else {
      assert (p + t)[1..] == p[1..] + t;
      assert (p + t)[0] == p[0];
      ContainsAfterPrefix(p[1..], t, sub);
    }
  }

  /** A string none of whose characters starts `sub` does not contain it. */
  lemma Lacks(s: string, sub: string)
    requires sub != [] && forall i :: 0 <= i < |s| ==> s[i] != sub[0]
    ensures !Contains(s, sub)
  {
    ContainsAfterPrefix(s, [], sub);
    assert s + [] == s;
  }

  lemma MonthsNameHoldsMonth()
    ensures !Contains(" months", "day") && Contains(" months", "month")
  {
    Lacks(" months", "day");
    assert " months"[1..][..5] == "month";
  }

  lemma WeeksNameHoldsWeek()
    ensures !Contains(" weeks", "day") && !Contains(" weeks", "month") && Contains(" weeks", "week")
  {
    Lacks(" weeks", "day");
    Lacks(" weeks", "month");
    assert " weeks"[1..][..4] == "week";
  }

  /** The digits of a count hold none of the unit words, so what a string
      after them contains is what the whole contains. */
  lemma CountHoldsNoUnit(n: int, t: string)
    ensures Contains(IntToString(n) + t, "day") == Contains(t, "day")
    ensures Contains(IntToString(n) + t, "month") == Contains(t, "month")
    ensures Contains(IntToString(n) + t, "week") == Contains(t, "week")
  {
    ContainsAfterPrefix(IntToString(n), t, "day");
    ContainsAfterPrefix(IntToString(n), t, "month");
    ContainsAfterPrefix(IntToString(n), t, "week");
  }

  /** The unit read back from a count and a unit name is that unit: each
      unit name holds its own unit and none tested before it, and the digits
      of the count hold no unit. */
  lemma UnitOfCount(n: int, u: Unit)
    ensures UnitOf(IntToString(n) + " " + UnitName(u)) == Some(u)
  {
    match u {
      case Days =>
        assert IntToString(n) + " " + UnitName(u) == IntToString(n) + " days";
        CountHoldsNoUnit(n, " days");
        assert " days"[1..][..3] == "day";
      case Months =>
        assert IntToString(n) + " " + UnitName(u) == IntToString(n) + " months";
        CountHoldsNoUnit(n, " months");
        MonthsNameHoldsMonth();
      case Weeks =>
        assert IntToString(n) + " " + UnitName(u) == IntToString(n) + " weeks";
        CountHoldsNoUnit(n, " weeks");
        WeeksNameHoldsWeek();
    }
  }

  /** The integer read back from a count and a unit name is the count. */
  lemma FirstIntOfCount(n: int, u: Unit)
    ensures FirstInt(IntToString(n) + " " + UnitName(u)) == Some(n)
  {
    var digits, rest := IntToString(n), " " + UnitName(u);
    var s := digits + rest;
    assert IntToString(n) + " " + UnitName(u) == s;
    WordOfPrefix(digits, rest);
    assert s[0] == digits[0];
    assert FirstToken(s) == Some(digits);
    IntToStringRoundTrip(n);
  }

  /** What the helpers read back from a count and a unit name. */
  lemma ReadBack(n: int, u: Unit)
    ensures UnitOf(IntToString(n) + " " + UnitName(u)) == Some(u)
    ensures FirstInt(IntToString(n) + " " + UnitName(u)) == Some(n)
  {
    UnitOfCount(n, u);
    FirstIntOfCount(n, u);
  }

  /** The word of a string that starts with a word and then a space. */
  lemma {:induction false} WordOfPrefix(w: string, rest: string)
    requires forall i :: 0 <= i < |w| ==> !IsSpace(w[i])
    requires rest != [] && IsSpace(rest[0])
    ensures Word(w + rest) == w
    decreases |w|
  {
    if w == [] {
      assert w + rest == rest;
    } else {
      assert (w + rest)[1..] == w[1..] + rest;
      WordOfPrefix(w[1..], rest);
    }
  }

  /** "N days" reads as N days, "N months" as 30N and "N weeks" as 7N. */
  lemma ParseRetentionOfCount(n: int, u: Unit)
    ensures ParseRetention(IntToString(n) + " " + UnitName(u)) == n * DaysPer(u)
  {
    ReadBack(n, u);
  }

  /** The extension of "N <unit>" is "2N <unit>", e.g. "30 days" becomes
      "60 days". */
  lemma ExtendedRetentionOfCount(n: int, u: Unit)
    ensures ExtendedRetention(IntToString(n) + " " + UnitName(u)) == IntToString(2 * n) + " " + UnitName(u)
  {
    ReadBack(n, u);
  }

  /** The error log is kept exactly twice as long as the other logs, for
      every retention string, including those that fall back to 30 days. */
  lemma ExtendedRetentionDoubles(r: string)
    ensures ParseRetention(ExtendedRetention(r)) == 2 * ParseRetention(r)
  {
    var u, n := UnitOf(r), FirstInt(r);
    if u.None? || n.None? {
      ReadBack(60, Days);
      assert IntToString(60) + " " + UnitName(Days) == "60 days" by {
        assert NatToString(60) == NatToString(6) + ['0'];
      }
    } else {
      ReadBack(2 * n.value, u.value);
    }
  }

  /** `_console_filter` (Log.py lines 137-142): a record reaches the console
      unless the environment is "prod" and the record is at level DEBUG. */
  function ConsoleFilter(env: string, levelName: string): (shown: bool)
    ensures env != "prod" ==> shown
    ensures env == "prod" ==> (shown <==> levelName != "DEBUG")
  {
    !(env == "prod" && levelName == "DEBUG")
  }

  /** The level names of the records that reach the console, in order. */
  function Shown(env: string, levels: seq<string>): (shown: seq<string>)
    ensures |shown| <= |levels|
    decreases |levels|
  {
    if levels == [] then []
    else (if ConsoleFilter(env, levels[0]) then [levels[0]] else []) + Shown(env, levels[1..])
  }

  /** Outside production the console shows every record; in production it
      shows every record but the DEBUG ones. */
  lemma {:induction false} ConsoleShowsAllButProductionDebug(env: string, levels: seq<string>)
    ensures env != "prod" ==> Shown(env, levels) == levels
    ensures env == "prod" ==> "DEBUG" !in Shown(env, levels)
    ensures env == "prod" ==> forall l :: l in levels && l != "DEBUG" ==> l in Shown(env, levels)
    decreases |levels|
  {
    if levels != [] {
      ConsoleShowsAllButProductionDebug(env, levels[1..]);
      assert forall l :: l in levels ==> l == levels[0] || l in levels[1..];
    }
  }
}
