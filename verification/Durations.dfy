/** The confirm window as it is said to a giver, and what a reader of it is promised. */
module Durations {
  import opened Prelude
  import opened Text
  import opened Decay
  import opened Reservations

  const HOUR: int := 60 * MINUTE

  /** Integer division that truncates toward zero. */
  function Quotient(a: int, b: int): int
    requires b > 0
  {
    if a >= 0 then a / b else -(-a / b)
  }

  function Unit(n: int, name: string): string {
    if n == 1 then "1 " + name else FormatInt(n) + " " + name + "s"
  }

  function HumanDuration(d: int): string {
    if d >= DAY && d % DAY == 0 then Unit(Quotient(d, DAY), "day")
    else if d >= HOUR && d % HOUR == 0 then Unit(Quotient(d, HOUR), "hour")
    else Unit(Quotient(d, MINUTE), "minute")
  }

  // --------------------------------------------------------------------- a reader

  function Word(s: string): (w: string)
    ensures ' ' !in w && w <= s
  {
    if s == "" || s[0] == ' ' then "" else [s[0]] + Word(s[1..])
  }

  /** The length of time a phrase such as "1 day" or "90 minutes" means. */
  function Meaning(text: string): Option<int> {
    var amount := Word(text);
    if |amount| == |text| then None
    else
      var n, unit := ParseInt(amount), UnitLength(text[|amount| + 1..]);
      if n.None? || unit.None? then None else Some(n.value * unit.value)
  }

  function UnitLength(word: string): Option<int> {
    if Names(word, "day") then Some(DAY)
    else if Names(word, "hour") then Some(HOUR)
    else if Names(word, "minute") then Some(MINUTE)
    else None
  }

  predicate Names(word: string, unit: string) {
    word == unit || word == unit + "s"
  }

  lemma {:induction false} WordOf(w: string, rest: string)
    requires ' ' !in w
    ensures Word(w + " " + rest) == w
  {
    var s := w + " " + rest;
    if w != "" {
      assert s[1..] == w[1..] + " " + rest;
      WordOf(w[1..], rest);
    }
  }

  lemma UnitMeaning(n: int, name: string, length: int)
    requires FitsInt64(n) && (name, length) in {("day", DAY), ("hour", HOUR), ("minute", MINUTE)}
    ensures Meaning(Unit(n, name)) == Some(n * length)
  {
    var amount, word := FormatInt(n), if n == 1 then name else name + "s";
    assert n == 1 ==> amount == "1" by {
      assert FormatNat(1) == ['1'];
    }
    assert Unit(n, name) == amount + " " + word;
    assert ParseInt(amount) == Some(n) by {
      ParseFormat(n);
    }
    PhraseMeaning(amount, word);
    WordLength(word, name, length);
  }

  lemma PhraseMeaning(amount: string, word: string)
    requires ' ' !in amount && ParseInt(amount).Some? && UnitLength(word).Some?
    ensures Meaning(amount + " " + word) == Some(ParseInt(amount).value * UnitLength(word).value)
  {
    WordOf(amount, word);
    assert (amount + " " + word)[|amount| + 1..] == word;
  }

  lemma WordLength(word: string, name: string, length: int)
    requires (name, length) in {("day", DAY), ("hour", HOUR), ("minute", MINUTE)} && Names(word, name)
    ensures UnitLength(word) == Some(length)
  {
    assert word[0] == name[0];
  }

  /** The phrase means the window cut down to whole minutes: the window itself exactly
      when it is one, never more than a window that is not negative, and never a minute
      short of it. */
  lemma HumanDurationMeaning(d: int)
    requires FitsInt64(d)
    ensures var said := Meaning(HumanDuration(d));
            && said.Some?
            && (said.value == d <==> d % MINUTE == 0)
            && (said.value <= d <==> d >= 0 || d % MINUTE == 0)
            && (d >= 0 ==> d - said.value < MINUTE)
  {
    if d >= DAY && d % DAY == 0 {
      UnitMeaning(d / DAY, "day", DAY);
      Whole(d, DAY, 1440);
    } else if d >= HOUR && d % HOUR == 0 {
      UnitMeaning(d / HOUR, "hour", HOUR);
      Whole(d, HOUR, 60);
    } else {
      Truncation(d);
      UnitMeaning(Quotient(d, MINUTE), "minute", MINUTE);
    }
  }

  lemma Whole(d: int, unit: int, minutes: int)
    requires unit == minutes * MINUTE && minutes > 0 && d % unit == 0
    ensures d / unit * unit == d && d % MINUTE == 0
  {
    assert d == (d / unit * minutes) * MINUTE;
    MultipleOfMinute(d, d / unit * minutes);
  }

  lemma Truncation(d: int)
    ensures var q := Quotient(d, MINUTE);
            && (d >= 0 ==> 0 <= d - q * MINUTE < MINUTE)
            && (d < 0 ==> -MINUTE < d - q * MINUTE <= 0)
            && (q * MINUTE == d <==> d % MINUTE == 0)
  {
  }

  lemma MultipleOfMinute(d: int, n: int)
    requires d == n * MINUTE
    ensures d % MINUTE == 0
  {
  }

  /** The promise in the confirmation mail is kept: the time it states runs out no later
      than the deadline, and a pass within it does not release the hold. */
  lemma MailPromiseKept(s: Store, cfg: Config, now: Time, id: Id)
    requires FitsInt64(cfg.confirmWindow) && IsCandidate(s, id) && s.holds[id].row.state == PendingConfirmation
    requires ConfirmDeadline(cfg, s.items[s.holds[id].item].confirmMinutes, s.holds[id].row).Some?
    ensures var row := s.holds[id].row;
            var deadline := ConfirmDeadline(cfg, s.items[s.holds[id].item].confirmMinutes, row).value;
            var said := Meaning(HumanDuration(Sub(deadline, row.stateAt)));
            && said.Some? && row.stateAt + said.value <= deadline
            && (now < row.stateAt + said.value ==> Decide(cfg, now, Snapshot(s, id)) != ReleaseHold)
  {
    var row := s.holds[id].row;
    var deadline := ConfirmDeadline(cfg, s.items[s.holds[id].item].confirmMinutes, row).value;
    HumanDurationMeaning(Sub(deadline, row.stateAt));
    DeadlineEnforcedIff(s, cfg, now, id);
  }
}
