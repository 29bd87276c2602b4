/** Text that is filled in and read back: the promise ids of schedules and the decimal
    numbers of tags. */
module Templates {
  import opened Records
  import opened Text
  import opened Kernel

  // ------------------------------------------------------------------ placeholders

  const ID_PLACE: string := "{{.id}}"
  const TIME_PLACE: string := "{{.timestamp}}"

  /** `from` occurs in `s`. */
  predicate Occurs(s: string, from: string) {
    s != "" && (from <= s || Occurs(s[1..], from))
  }

  /** A text without the placeholder is left as it is. */
  lemma {:induction false} Absent(s: string, from: string, to: string)
    requires from != "" && !Occurs(s, from)
    ensures Replace(s, from, to) == s
  {
    if s != "" {
      Absent(s[1..], from, to);
    }
  }

  /** The first placeholder is replaced, and then those of the rest. */
  lemma {:induction false} ReplaceFirst(a: string, from: string, b: string, to: string)
    requires from != "" && !Occurs(a + from[..|from| - 1], from)
    ensures Replace(a + from + b, from, to) == a + to + Replace(b, from, to)
  {
    hide Replace, Occurs;
    if a == "" {
      PlaceReplaced(b, from, to);
      assert a + from + b == from + b;
      assert a + to + Replace(b, from, to) == to + Replace(b, from, to);
    } else {
      var rest := a[1..] + from + b;
      assert a + from + b == [a[0]] + rest;
      NotHere(a, from, b);
      StepOver(a[0], rest, from, to);
      ReplaceFirst(a[1..], from, b, to);
      assert [a[0]] + (a[1..] + to + Replace(b, from, to)) == a + to + Replace(b, from, to);
    }
  }

  /** The placeholder begins neither here nor, with this character gone, too early. */
  lemma NotHere(a: string, from: string, b: string)
    requires from != "" && a != "" && !Occurs(a + from[..|from| - 1], from)
    ensures !(from <= a + from + b) && !Occurs(a[1..] + from[..|from| - 1], from)
  {
    var head := a + from[..|from| - 1];
    assert head[1..] == a[1..] + from[..|from| - 1];
    var s := a + from + b;
    assert s[..|from|] == head[..|from|];
  }

  /** Text without an opening brace. */
  predicate Braceless(s: string) {
    '{' !in s
  }

  lemma {:induction false} SkipBraceless(a: string, b: string, from: string, to: string)
    requires Braceless(a) && from != "" && from[0] == '{'
    ensures Replace(a + b, from, to) == a + Replace(b, from, to)
  {
    if a == "" {
      assert a + b == b;
    } else {
      var s := a + b;
      assert s[0] == a[0] && s[1..] == a[1..] + b;
      assert Braceless(a[1..]);
      SkipBraceless(a[1..], b, from, to);
      assert a == [a[0]] + a[1..];
    }
  }

  lemma PlaceReplaced(b: string, from: string, to: string)
    requires from != ""
    ensures Replace(from + b, from, to) == to + Replace(b, from, to)
  {
    assert (from + b)[|from|..] == b;
  }

  /** The placeholder of the time is no placeholder of the id. */
  lemma TimeIsNotId(c: string, to: string)
    requires Braceless(c)
    ensures Replace(TIME_PLACE + c, ID_PLACE, to) == TIME_PLACE + c
  {
    hide Replace;
    var rest := ".timestamp}}" + c;
    var inner := ['{'] + rest;
    assert Braceless(rest) by { assert Braceless(".timestamp}}"); }
    SkipBraceless(rest, "", ID_PLACE, to);
    ReplaceNothing(ID_PLACE, to);
    assert rest + "" == rest;
    assert inner[1] == '.';
    NotPrefix(ID_PLACE, inner, 1);
    StepOver('{', rest, ID_PLACE, to);
    assert (['{'] + inner)[3] == 't';
    NotPrefix(ID_PLACE, ['{'] + inner, 3);
    StepOver('{', inner, ID_PLACE, to);
    assert TIME_PLACE == "{{" + ".timestamp}}";
    assert TIME_PLACE + c == ['{'] + inner;
  }

  lemma NotPrefix(from: string, s: string, k: nat)
    requires k < |from| && k < |s| && from[k] != s[k]
    ensures !(from <= s)
  {
  }

  lemma StepOver(first: char, rest: string, from: string, to: string)
    requires from != "" && !(from <= [first] + rest)
    ensures Replace([first] + rest, from, to) == [first] + Replace(rest, from, to)
  {
    assert ([first] + rest)[1..] == rest;
  }

  /** A schedule fires the id that its template names: its own id and its next time stand
      where the template has their placeholders. */
  lemma FiredIdIsFilled(s: ScheduleRecord, a: string, b: string, c: string)
    requires s.promiseId == a + (ID_PLACE + (b + (TIME_PLACE + c)))
    requires Braceless(a) && Braceless(b) && Braceless(c) && Braceless(s.id)
    ensures FiredPromiseId(s) == a + (s.id + (b + (IntToString(s.nextRunAt) + c)))
  {
    hide Replace, IntToString;
    var time := IntToString(s.nextRunAt);
    SkipBraceless(a, ID_PLACE + (b + (TIME_PLACE + c)), ID_PLACE, s.id);
    PlaceReplaced(b + (TIME_PLACE + c), ID_PLACE, s.id);
    SkipBraceless(b, TIME_PLACE + c, ID_PLACE, s.id);
    TimeIsNotId(c, s.id);
    SkipBraceless(a, s.id + (b + (TIME_PLACE + c)), TIME_PLACE, time);
    SkipBraceless(s.id, b + (TIME_PLACE + c), TIME_PLACE, time);
    SkipBraceless(b, TIME_PLACE + c, TIME_PLACE, time);
    PlaceReplaced(c, TIME_PLACE, time);
    SkipBraceless(c, "", TIME_PLACE, time);
    assert c + "" == c && Replace("", TIME_PLACE, time) == "" by { ReplaceNothing(TIME_PLACE, time); }
  }

  lemma ReplaceNothing(from: string, to: string)
    requires from != ""
    ensures Replace("", from, to) == ""
  {
  }

  // ---------------------------------------------------------------- decimal numbers

  lemma {:induction false} DigitsParse(n: nat)
    ensures Digits(n) != "" && (forall c :: c in Digits(n) ==> IsDigit(c)) && DigitsValue(Digits(n)) == n
  {
    if n >= 10 {
      DigitsParse(n / 10);
      var s := Digits(n);
      assert s[..|s| - 1] == Digits(n / 10) && s[|s| - 1] == DigitOf(n % 10);
      assert (n % 10) as char as int == n % 10;
    } else {
      assert Digits(n)[..0] == "";
    }
  }

  /** Parsing is the inverse of printing, and of nothing beyond 64 bits. */
  lemma PrintedIsParsed(n: int)
    ensures ParseI64(IntToString(n)) == if I64_MIN <= n <= I64_MAX then Some(n) else None
  {
    var m := if n < 0 then -n else n;
    DigitsParse(m);
    hide Digits, DigitsValue;
    var digits := Digits(m);
    if n < 0 {
      assert ("-" + digits)[1..] == digits;
    } else {
      assert IsDigit(digits[0]);
    }
  }
}
