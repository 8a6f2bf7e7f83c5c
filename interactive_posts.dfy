// The LinkedIn post browser (interactive_posts.py): image transmission in the kitty terminal
// graphics protocol, date parsing, loading and filtering the posts of the last thirty days,
// and marking posts as to-dos.

module InteractivePosts {
  import opened Common

  // ---------------------------------------------------------------------
  // Chunked transmission in the kitty graphics protocol
  // ---------------------------------------------------------------------

  const Esc: char := '\U{001B}'
  /** The string terminator ESC \ that closes every graphics command. */
  const ST: string := [Esc, '\\']
  const ChunkSize: nat := 4096

  predicate IsBase64Char(c: char)
  {
    ('A' <= c <= 'Z') || ('a' <= c <= 'z') || ('0' <= c <= '9') || c == '+' || c == '/' || c == '='
  }

  /** The output of a standard base64 encoder. */
  type Base64 = s: string | forall c :: c in s ==> IsBase64Char(c)

  /** The control keys of chunk `i` of `n`: the first chunk carries the action and format (and no
      `m` key, even when more chunks follow); later ones say whether more follow. */
  function Control(i: nat, n: nat): string
  {
    if i == 0 then "a=T,f=100" else if i == n - 1 then "m=0" else "m=1"
  }

  function Frame(control: string, payload: string): string
  {
    [Esc] + "_G" + control + ";" + payload + ST
  }

  /** The escape sequences written for the chunks `cs`, the first of which is chunk `i` of `n`. */
  function Frames(cs: seq<string>, i: nat, n: nat): string
    decreases |cs|
  {
    if cs == [] then [] else Frame(Control(i, n), cs[0]) + Frames(cs[1..], i + 1, n)
  }

  /** What `display_image_kitty_to_terminal` writes for the base64 text of an image. */
  function KittyStream(encoded: Base64): string
  {
    var cs := Chunks(encoded, ChunkSize);
    Frames(cs, 0, |cs|)
  }

  /** A reader of graphics command streams: the (control, payload) pair of each command, or
      None when the stream is not a sequence of complete commands. */
  function Unframe(s: string): Option<seq<(string, string)>>
    decreases |s|
  {
    if s == [] then Some([])
    else
      match ReadCommand(s)
      case None => None
      case Some((control, payload, tail)) =>
        match Unframe(tail)
        case None => None
        case Some(fs) => Some([(control, payload)] + fs)
  }

  /** The first command of a stream: the header, the control text up to the first `;`, the
      payload up to the first ESC and the backslash that closes it; then what follows. */
  function ReadCommand(s: string): (r: Option<(string, string, string)>)
    ensures r.Some? ==> |r.value.2| < |s|
  {
    if |s| < 3 || s[..3] != [Esc] + "_G" then None
    else
      var rest := s[3..];
      var i := IndexOf(rest, ';');
      if i == |rest| then None
      else
        var after := rest[i + 1..];
        var j := IndexOf(after, Esc);
        if j + 1 >= |after| || after[j + 1] != '\\' then None
        else Some((rest[..i], after[..j], after[j + 2..]))
  }

  /** A reader takes one command off the front of a stream. */
  lemma UnframeFrame(control: string, payload: string, tail: string)
    requires ';' !in control && Esc !in payload
    ensures Unframe(Frame(control, payload) + tail) ==
      match Unframe(tail)
      case None => None
      case Some(fs) => Some([(control, payload)] + fs)
  {
    var s := Frame(control, payload) + tail;
    var after := payload + [Esc] + (['\\'] + tail);
    FrameLayout(control, payload, tail);
    SplitFirst(control, ';', after);
    SplitFirst(payload, Esc, ['\\'] + tail);
    assert after[|payload| + 2..] == tail by {
      assert after[|payload| + 2..] == after[|payload| + 1..][1..];
    }
    UnframeStep(s, control, payload, tail);
  }

  /** One step of the reader: a header, a control text up to the first `;`, a payload up to the
      first ESC, a backslash and the tail. */
  lemma UnframeStep(s: string, control: string, payload: string, tail: string)
    requires |s| >= 3 && s[..3] == [Esc] + "_G"
    requires var rest := s[3..];
      IndexOf(rest, ';') == |control| < |rest| && rest[..|control|] == control
      && var after := rest[|control| + 1..];
      IndexOf(after, Esc) == |payload| && |payload| + 1 < |after| && after[..|payload|] == payload
      && after[|payload| + 1] == '\\' && after[|payload| + 2..] == tail
    ensures Unframe(s) ==
      match Unframe(tail)
      case None => None
      case Some(fs) => Some([(control, payload)] + fs)
  {
    assert ReadCommand(s) == Some((control, payload, tail));
  }

  /** The bytes of a command followed by more text. */
  lemma FrameLayout(control: string, payload: string, tail: string)
    ensures var s := Frame(control, payload) + tail;
      |s| >= 3 && s[..3] == [Esc] + "_G"
      && s[3..] == control + [';'] + (payload + [Esc] + (['\\'] + tail))
  {
  }

  /** Looking for `c` in `a + [c] + b`, where `a` has none, finds the one after `a`. */
  lemma SplitFirst(a: string, c: char, b: string)
    requires c !in a
    ensures var s := a + [c] + b;
      IndexOf(s, c) == |a| && s[..|a|] == a && s[|a| + 1..] == b
  {
    var s := a + [c] + b;
    forall k | 0 <= k < |a| ensures s[k] != c {
      assert s[k] == a[k];
    }
    IndexOfIs(s, c, |a|);
  }

  lemma IndexOfIs(s: string, c: char, i: nat)
    requires i < |s| && s[i] == c && forall k :: 0 <= k < i ==> s[k] != c
    ensures IndexOf(s, c) == i
  {
  }

  /** The (control, payload) pair of each command written for the chunks `cs`. */
  function Commands(cs: seq<string>, i: nat, n: nat): (r: seq<(string, string)>)
    ensures |r| == |cs|
    decreases |cs|
  {
    if cs == [] then [] else [(Control(i, n), cs[0])] + Commands(cs[1..], i + 1, n)
  }

  lemma {:induction false} UnframeFrames(cs: seq<string>, i: nat, n: nat)
    requires forall c :: c in cs ==> Esc !in c
    ensures Unframe(Frames(cs, i, n)) == Some(Commands(cs, i, n))
    decreases |cs|
  {
    if cs != [] {
      assert cs[0] in cs && forall c :: c in cs[1..] ==> c in cs;
      UnframeFrames(cs[1..], i + 1, n);
      ControlHasNoSemicolon(i, n);
      UnframeFrame(Control(i, n), cs[0], Frames(cs[1..], i + 1, n));
    }
  }

  lemma ControlHasNoSemicolon(i: nat, n: nat)
    ensures ';' !in Control(i, n)
  {
  }

  lemma {:induction false} CommandsAt(cs: seq<string>, i: nat, n: nat, k: nat)
    requires k < |cs|
    ensures Commands(cs, i, n)[k] == (Control(i + k, n), cs[k])
    decreases |cs|
  {
    if k > 0 {
      CommandsAt(cs[1..], i + 1, n, k - 1);
    }
  }

  /** Reading the stream back gives one command per chunk: the chunks have at most 4096
      characters and join up to the base64 text; the first command carries `a=T,f=100`, the last
      of several `m=0`, and the ones between `m=1`. */
  lemma KittyStreamRoundTrip(encoded: Base64)
    ensures var cs := Chunks(encoded, ChunkSize);
      && Unframe(KittyStream(encoded)) == Some(Commands(cs, 0, |cs|))
      && Flatten(cs) == encoded
      && (forall c :: c in cs ==> 0 < |c| <= ChunkSize)
      && (forall k :: 0 <= k < |cs| ==>
            (Commands(cs, 0, |cs|)[k].1 == cs[k]
             && Commands(cs, 0, |cs|)[k].0 == (if k == 0 then "a=T,f=100" else if k == |cs| - 1 then "m=0" else "m=1")))
  {
    var cs := Chunks(encoded, ChunkSize);
    ChunksFlatten(encoded, ChunkSize);
    ChunksSizes(encoded, ChunkSize);
    ChunksNoEsc(encoded);
    UnframeFrames(cs, 0, |cs|);
    CommandsControls(cs);
  }

  /** No chunk of base64 text holds an ESC. */
  lemma ChunksNoEsc(encoded: Base64)
    ensures forall c :: c in Chunks(encoded, ChunkSize) ==> Esc !in c
  {
    forall c | c in Chunks(encoded, ChunkSize) ensures Esc !in c {
      ChunkIn(encoded, c);
    }
  }

  /** The commands for all chunks: each carries its chunk and the control keys of its place. */
  lemma CommandsControls(cs: seq<string>)
    ensures forall k :: 0 <= k < |cs| ==>
      (Commands(cs, 0, |cs|)[k].1 == cs[k]
       && Commands(cs, 0, |cs|)[k].0 == (if k == 0 then "a=T,f=100" else if k == |cs| - 1 then "m=0" else "m=1"))
  {
    forall k | 0 <= k < |cs|
      ensures Commands(cs, 0, |cs|)[k].1 == cs[k]
      ensures Commands(cs, 0, |cs|)[k].0 == (if k == 0 then "a=T,f=100" else if k == |cs| - 1 then "m=0" else "m=1")
    {
      CommandsAt(cs, 0, |cs|, k);
    }
  }

  /** Every chunk's characters come from the text it was cut from. */
  lemma {:induction false} ChunkIn(xs: string, c: string)
    requires c in Chunks(xs, ChunkSize)
    ensures forall ch :: ch in c ==> ch in xs
    decreases |xs|
  {
    if |xs| > ChunkSize {
      if c != xs[..ChunkSize] {
        assert c in Chunks(xs[ChunkSize..], ChunkSize);
        ChunkIn(xs[ChunkSize..], c);
      }
    }
  }

  // ---------------------------------------------------------------------
  // parse_date
  // ---------------------------------------------------------------------

  datatype DateTime = DateTime(year: int, month: int, day: int, hour: int, minute: int, second: int)

  /** `datetime.min`. */
  const MinDate := DateTime(1, 1, 1, 0, 0, 0)

  predicate IsLeap(y: int)
  {
    y % 4 == 0 && (y % 100 != 0 || y % 400 == 0)
  }

  function DaysInMonth(y: int, m: int): int
  {
    if m == 2 then (if IsLeap(y) then 29 else 28)
    else if m in {4, 6, 9, 11} then 30
    else 31
  }

  /** The values `datetime` accepts. */
  predicate ValidDate(d: DateTime)
  {
    && 1 <= d.year <= 9999 && 1 <= d.month <= 12 && 1 <= d.day <= DaysInMonth(d.year, d.month)
    && 0 <= d.hour < 24 && 0 <= d.minute < 60 && 0 <= d.second < 60
  }

  /** The fields of the layout `%Y-%m-%d %H:%M:%S` that follow the year. */
  datatype Field = Month | Day | Hour | Minute | Second

  /** The two-character alternatives of `strptime`'s pattern for each field: `1[0-2]|0[1-9]` for
      `%m`, `3[01]|[12]\d|0[1-9]| [1-9]` for `%d`, `2[0-3]|[0-1]\d` for `%H`, `[0-5]\d` for `%M`
      and `6[0-1]|[0-5]\d` for `%S`. */
  predicate Two(f: Field, a: char, b: char)
  {
    match f
    case Month => (a == '1' && '0' <= b <= '2') || (a == '0' && '1' <= b <= '9')
    case Day => (a == '3' && '0' <= b <= '1') || ('1' <= a <= '2' && IsDigit(b)) || ((a == '0' || a == ' ') && '1' <= b <= '9')
    case Hour => (a == '2' && '0' <= b <= '3') || ('0' <= a <= '1' && IsDigit(b))
    case Minute => '0' <= a <= '5' && IsDigit(b)
    case Second => (a == '6' && '0' <= b <= '1') || ('0' <= a <= '5' && IsDigit(b))
  }

  /** The one-character alternative: `[1-9]` for `%m` and `%d`, `\d` for the others. */
  predicate One(f: Field, c: char)
  {
    if f == Month || f == Day then '1' <= c <= '9' else IsDigit(c)
  }

  /** A field matched at the front of the text: its value and the characters it took. */
  datatype Token = Token(value: nat, len: nat)

  function DigitValue(c: char): nat
    requires IsDigit(c)
  {
    c as int - '0' as int
  }

  /** The field at the front of `s`. The pattern tries its two-character alternatives first.
      Where one of them matches, the one-character alternative would leave a digit where the
      format wants a separator, so no match is lost by taking the two characters. */
  function FieldFront(s: string, f: Field): (r: Option<Token>)
    ensures r.Some? ==> 1 <= r.value.len <= 2 && r.value.len <= |s| && r.value.value < 100
  {
    if |s| >= 2 && Two(f, s[0], s[1]) then
      Some(Token((if s[0] == ' ' then 0 else DigitValue(s[0])) * 10 + DigitValue(s[1]), 2))
    else if |s| >= 1 && One(f, s[0]) then Some(Token(DigitValue(s[0]), 1))
    else None
  }

  /** A field followed by the separator `sep`: its value and the text after the separator. */
  function FieldThen(s: string, f: Field, sep: char): (r: Option<(nat, string)>)
    ensures r.Some? ==> r.value.0 < 100
  {
    match FieldFront(s, f)
    case None => None
    case Some(t) =>
      var rest := s[t.len..];
      if rest != [] && rest[0] == sep then Some((t.value, rest[1..])) else None
  }

  /** `s` without its leading white space. */
  function DropSpace(s: string): (r: string)
    ensures |r| <= |s|
  {
    if s != [] && IsSpace(s[0]) then DropSpace(s[1..]) else s
  }

  /** `%H:%M:%S` up to the end of the text ("unconverted data remains" otherwise). */
  function ParseTime(s: string): (r: Option<(nat, nat, nat)>)
    ensures r.Some? ==> r.value.0 < 100 && r.value.1 < 100 && r.value.2 < 100
  {
    match FieldThen(s, Hour, ':')
    case None => None
    case Some((h, s1)) =>
      match FieldThen(s1, Minute, ':')
      case None => None
      case Some((m, s2)) =>
        match FieldFront(s2, Second)
        case None => None
        case Some(t) => if |s2| == t.len then Some((h, m, t.value)) else None
  }

  /** `%d`, the white space after it, and the time, up to the end of the text. */
  function ParseDayTime(s: string): (r: Option<(nat, nat, nat, nat)>)
  {
    match FieldFront(s, Day)
    case None => None
    case Some(day) =>
      var gap := s[day.len..];
      if gap == [] || !IsSpace(gap[0]) then None
      else
        match ParseTime(DropSpace(gap))
        case None => None
        case Some((h, m, sec)) => Some((day.value, h, m, sec))
  }

  /** `%m-%d %H:%M:%S` up to the end of the text. */
  function ParseMonthOn(s: string): (r: Option<(nat, nat, nat, nat, nat)>)
  {
    match FieldThen(s, Month, '-')
    case None => None
    case Some((month, s1)) =>
      match ParseDayTime(s1)
      case None => None
      case Some((day, h, m, sec)) => Some((month, day, h, m, sec))
  }

  /** `datetime.strptime(s, "%Y-%m-%d %H:%M:%S")`: four digits of year, then the fields as
      `FieldFront` reads them, the space of the format matching any non-empty run of white
      space, nothing left over, and a date and time `datetime` accepts (year 0, the 30th of
      February and second 60 raise). None: it raises. */
  function ParseDateText(s: string): (r: Option<DateTime>)
    ensures r.Some? ==> ValidDate(r.value)
  {
    if |s| < 5 || !AllDigits(s[..4]) || s[4] != '-' then None
    else
      match ParseMonthOn(s[5..])
      case None => None
      case Some((month, day, h, m, sec)) =>
        var d := DateTime(DigitsValue(s[..4]), month, day, h, m, sec);
        if ValidDate(d) then Some(d) else None
  }

  /** `parse_date`: anything that does not parse, including a value that is not a string,
      gives `datetime.min`. */
  function ParseDate(v: Json): (d: DateTime)
    ensures ValidDate(d)
    ensures v.JStr? && ParseDateText(v.s).Some? ==> d == ParseDateText(v.s).value
    ensures !v.JStr? || ParseDateText(v.s).None? ==> d == MinDate
  {
    if v.JStr? && ParseDateText(v.s).Some? then ParseDateText(v.s).value else MinDate
  }

  // The texts `strptime` reads as a given date

  /** How a day below 10 is written: `05`, `5` or ` 5`. */
  datatype DayStyle = ZeroDay | BareDay | SpaceDay

  /** A way of writing a date that the format accepts: month, hour, minute and second below 10
      with or without their leading zero, the day in one of its styles, and a non-empty run of
      white space between date and time. */
  datatype Layout = Layout(padMonth: bool, day: DayStyle, padHour: bool, padMinute: bool, padSecond: bool,
                           gap: string)

  predicate ValidLayout(l: Layout)
  {
    l.gap != [] && forall c :: c in l.gap ==> IsSpace(c)
  }

  /** A number below 100 in two digits, or in one digit when it is below 10 and `pad` is off. */
  function Num(n: nat, pad: bool): string
    requires n < 100
  {
    if pad || n >= 10 then Pad(n, 2) else [DigitChar(n)]
  }

  function DayText(n: nat, style: DayStyle): string
    requires n < 100
  {
    if n >= 10 || style == ZeroDay then Pad(n, 2)
    else if style == BareDay then [DigitChar(n)]
    else [' ', DigitChar(n)]
  }

  function TimeText(h: nat, m: nat, sec: nat, ph: bool, pm: bool, ps: bool): string
    requires h < 100 && m < 100 && sec < 100
  {
    Num(h, ph) + ([':'] + (Num(m, pm) + ([':'] + Num(sec, ps))))
  }

  /** A date written in layout `l`. */
  function Render(d: DateTime, l: Layout): string
    requires ValidDate(d)
  {
    Pad(d.year, 4) + (['-'] + (Num(d.month, l.padMonth) + (['-'] + (DayText(d.day, l.day)
      + (l.gap + TimeText(d.hour, d.minute, d.second, l.padHour, l.padMinute, l.padSecond))))))
  }

  /** The layout `%Y-%m-%d %H:%M:%S` writes: every field zero-padded, one space. */
  const Canonical := Layout(true, ZeroDay, true, true, true, " ")

  /** The text of a date in the layout `%Y-%m-%d %H:%M:%S`. */
  function FormatDate(d: DateTime): (s: string)
    requires ValidDate(d)
    ensures |s| == 19
  {
    Render(d, Canonical)
  }

  lemma PadTwo(n: nat)
    requires n < 100
    ensures Pad(n, 2) == [DigitChar(n / 10), DigitChar(n % 10)]
  {
    assert Pad(n / 10, 1) == Pad(n / 100, 0) + [DigitChar(n / 10 % 10)];
  }

  /** Where a number is in range for its field and is followed by no digit, the field reads
      back the number and takes exactly its text. */
  lemma NumFront(f: Field, n: nat, pad: bool, rest: string)
    requires f != Day && n < 100
    requires f == Month ==> 1 <= n <= 12
    requires f == Hour ==> n < 24
    requires f == Minute || f == Second ==> n < 60
    requires rest == [] || !IsDigit(rest[0])
    ensures FieldFront(Num(n, pad) + rest, f) == Some(Token(n, |Num(n, pad)|))
    ensures (Num(n, pad) + rest)[|Num(n, pad)|..] == rest
  {
    var t := Num(n, pad);
    var s := t + rest;
    if pad || n >= 10 {
      PadTwo(n);
      assert s[0] == DigitChar(n / 10) && s[1] == DigitChar(n % 10);
    } else {
      assert s[0] == DigitChar(n);
    }
  }

  lemma DayFront(n: nat, style: DayStyle, rest: string)
    requires 1 <= n <= 31
    requires rest == [] || !IsDigit(rest[0])
    ensures FieldFront(DayText(n, style) + rest, Day) == Some(Token(n, |DayText(n, style)|))
    ensures (DayText(n, style) + rest)[|DayText(n, style)|..] == rest
  {
    var t := DayText(n, style);
    var s := t + rest;
    if n >= 10 || style == ZeroDay {
      PadTwo(n);
      assert s[0] == DigitChar(n / 10) && s[1] == DigitChar(n % 10);
    } else if style == BareDay {
      assert s[0] == DigitChar(n);
    } else {
      assert s[0] == ' ' && s[1] == DigitChar(n);
    }
  }

  lemma {:induction false} DropGap(gap: string, rest: string)
    requires forall c :: c in gap ==> IsSpace(c)
    requires rest == [] || !IsSpace(rest[0])
    ensures DropSpace(gap + rest) == rest
    decreases |gap|
  {
    if gap != [] {
      assert gap[0] in gap && (gap + rest)[1..] == gap[1..] + rest;
      assert forall c :: c in gap[1..] ==> c in gap;
      DropGap(gap[1..], rest);
    } else {
      assert gap + rest == rest;
    }
  }

  lemma TimeFront(h: nat, m: nat, sec: nat, ph: bool, pm: bool, ps: bool)
    requires h < 24 && m < 60 && sec < 60
    ensures ParseTime(TimeText(h, m, sec, ph, pm, ps)) == Some((h, m, sec))
  {
    var tail := [':'] + Num(sec, ps);
    var mid := [':'] + (Num(m, pm) + tail);
    NumFront(Hour, h, ph, mid);
    assert mid[1..] == Num(m, pm) + tail;
    NumFront(Minute, m, pm, tail);
    assert tail[1..] == Num(sec, ps);
    NumFront(Second, sec, ps, []);
    assert Num(sec, ps) + [] == Num(sec, ps);
  }

  lemma DayTimeFront(d: DateTime, l: Layout)
    requires ValidDate(d) && ValidLayout(l)
    ensures var time := TimeText(d.hour, d.minute, d.second, l.padHour, l.padMinute, l.padSecond);
      ParseDayTime(DayText(d.day, l.day) + (l.gap + time)) == Some((d.day, d.hour, d.minute, d.second))
  {
    var time := TimeText(d.hour, d.minute, d.second, l.padHour, l.padMinute, l.padSecond);
    assert l.gap[0] in l.gap;
    DayFront(d.day, l.day, l.gap + time);
    if l.padHour || d.hour >= 10 { PadTwo(d.hour); }
    assert time[0] == Num(d.hour, l.padHour)[0];
    DropGap(l.gap, time);
    TimeFront(d.hour, d.minute, d.second, l.padHour, l.padMinute, l.padSecond);
  }

  lemma MonthOnFront(d: DateTime, l: Layout)
    requires ValidDate(d) && ValidLayout(l)
    ensures var time := TimeText(d.hour, d.minute, d.second, l.padHour, l.padMinute, l.padSecond);
      ParseMonthOn(Num(d.month, l.padMonth) + (['-'] + (DayText(d.day, l.day) + (l.gap + time))))
        == Some((d.month, d.day, d.hour, d.minute, d.second))
  {
    var time := TimeText(d.hour, d.minute, d.second, l.padHour, l.padMinute, l.padSecond);
    var afterMonth := ['-'] + (DayText(d.day, l.day) + (l.gap + time));
    NumFront(Month, d.month, l.padMonth, afterMonth);
    assert afterMonth[1..] == DayText(d.day, l.day) + (l.gap + time);
    DayTimeFront(d, l);
  }

  /** Every layout of a valid date parses back to that date: `strptime` accepts unpadded
      fields, a space-padded day and any run of white space between date and time. */
  lemma ParseRender(d: DateTime, l: Layout)
    requires ValidDate(d) && ValidLayout(l)
    ensures ParseDateText(Render(d, l)) == Some(d)
  {
    var time := TimeText(d.hour, d.minute, d.second, l.padHour, l.padMinute, l.padSecond);
    var afterYear := Num(d.month, l.padMonth) + (['-'] + (DayText(d.day, l.day) + (l.gap + time)));
    var s := Render(d, l);
    assert s == Pad(d.year, 4) + (['-'] + afterYear);
    assert s[..4] == Pad(d.year, 4) && s[4] == '-' && s[5..] == afterYear;
    assert Pow10(4) == 10000;
    PadValue(d.year, 4);
    MonthOnFront(d, l);
  }

  /** Formatting a valid date and parsing it back gives the date. */
  lemma ParseFormat(d: DateTime)
    requires ValidDate(d)
    ensures ParseDateText(FormatDate(d)) == Some(d)
  {
    ParseRender(d, Canonical);
  }

  /** The text a field took is the field's value written with or without its leading zero. */
  lemma NumOfFront(s: string, f: Field)
    requires f != Day && FieldFront(s, f).Some?
    ensures var t := FieldFront(s, f).value;
      s[..t.len] == Num(t.value, t.len == 2) && (t.len == 1 ==> t.value < 10)
  {
    var t := FieldFront(s, f).value;
    if t.len == 2 {
      PadTwo(t.value);
      assert s[..2] == [s[0], s[1]];
    } else {
      assert s[..1] == [s[0]];
    }
  }

  /** The text the day field took is the day in one of its styles. */
  lemma DayOfFront(s: string) returns (style: DayStyle)
    requires FieldFront(s, Day).Some?
    ensures var t := FieldFront(s, Day).value;
      s[..t.len] == DayText(t.value, style)
  {
    var t := FieldFront(s, Day).value;
    if t.len == 2 {
      style := if s[0] == ' ' then SpaceDay else ZeroDay;
      PadTwo(t.value);
      assert s[..2] == [s[0], s[1]];
    } else {
      style := BareDay;
      assert s[..1] == [s[0]];
    }
  }

  /** A field followed by its separator is the field's text, the separator and the rest. */
  lemma ThenShape(s: string, f: Field, sep: char) returns (pad: bool)
    requires f != Day && FieldThen(s, f, sep).Some?
    ensures var (v, rest) := FieldThen(s, f, sep).value;
      s == Num(v, pad) + ([sep] + rest)
  {
    var t := FieldFront(s, f).value;
    NumOfFront(s, f);
    pad := t.len == 2;
    assert s == s[..t.len] + s[t.len..];
    assert s[t.len..] == [sep] + s[t.len..][1..];
  }

  lemma TimeShape(s: string) returns (ph: bool, pm: bool, ps: bool)
    requires ParseTime(s).Some?
    ensures var (h, m, sec) := ParseTime(s).value;
      s == TimeText(h, m, sec, ph, pm, ps)
  {
    var (h, s1) := FieldThen(s, Hour, ':').value;
    ph := ThenShape(s, Hour, ':');
    var (m, s2) := FieldThen(s1, Minute, ':').value;
    pm := ThenShape(s1, Minute, ':');
    NumOfFront(s2, Second);
    ps := FieldFront(s2, Second).value.len == 2;
    assert s2 == s2[..|s2|];
  }

  /** `s` is its leading white space followed by `DropSpace(s)`. */
  lemma {:induction false} DropSpaceSplit(s: string)
    ensures var k := |s| - |DropSpace(s)|;
      s[k..] == DropSpace(s) && forall i :: 0 <= i < k ==> IsSpace(s[i])
    decreases |s|
  {
    if s != [] && IsSpace(s[0]) {
      DropSpaceSplit(s[1..]);
    }
  }

  /** Text that starts with white space is its white-space run followed by `DropSpace` of it. */
  lemma GapShape(s: string) returns (gap: string)
    requires s != [] && IsSpace(s[0])
    ensures gap != [] && (forall c :: c in gap ==> IsSpace(c)) && s == gap + DropSpace(s)
  {
    DropSpaceSplit(s);
    gap := s[..|s| - |DropSpace(s)|];
    forall c | c in gap ensures IsSpace(c) {
      var i :| 0 <= i < |gap| && gap[i] == c;
    }
    assert s == gap + s[|gap|..];
  }

  lemma DayTimeShape(s: string) returns (style: DayStyle, gap: string, ph: bool, pm: bool, ps: bool)
    requires ParseDayTime(s).Some?
    ensures var (day, h, m, sec) := ParseDayTime(s).value;
      && day < 100 && h < 100 && m < 100 && sec < 100
      && gap != [] && (forall c :: c in gap ==> IsSpace(c))
      && s == DayText(day, style) + (gap + TimeText(h, m, sec, ph, pm, ps))
  {
    var day := FieldFront(s, Day).value;
    style := DayOfFront(s);
    var gapTime := s[day.len..];
    var time := DropSpace(gapTime);
    var (h, m, sec) := ParseTime(time).value;
    assert ParseDayTime(s).value == (day.value, h, m, sec);
    gap := GapShape(gapTime);
    ph, pm, ps := TimeShape(time);
    assert s == s[..day.len] + gapTime;
  }

  lemma MonthOnShape(s: string) returns (padMonth: bool, style: DayStyle, gap: string, ph: bool, pm: bool, ps: bool)
    requires ParseMonthOn(s).Some?
    ensures var (month, day, h, m, sec) := ParseMonthOn(s).value;
      && month < 100 && day < 100 && h < 100 && m < 100 && sec < 100
      && gap != [] && (forall c :: c in gap ==> IsSpace(c))
      && s == Num(month, padMonth) + (['-'] + (DayText(day, style) + (gap + TimeText(h, m, sec, ph, pm, ps))))
  {
    var (month, s1) := FieldThen(s, Month, '-').value;
    padMonth := ThenShape(s, Month, '-');
    style, gap, ph, pm, ps := DayTimeShape(s1);
  }

  /** Text that parses is its date written in one of the layouts. */
  lemma ParsedLayout(s: string) returns (l: Layout)
    requires ParseDateText(s).Some?
    ensures ValidLayout(l) && Render(ParseDateText(s).value, l) == s
  {
    var padMonth, style, gap, ph, pm, ps := MonthOnShape(s[5..]);
    l := Layout(padMonth, style, ph, pm, ps, gap);
    PadOfValue(s[..4]);
    assert s == s[..4] + (['-'] + s[5..]);
  }

  /** Text parses to a valid date exactly when it is that date written in some layout. */
  lemma ParsesIffLayout(s: string, d: DateTime)
    requires ValidDate(d)
    ensures ParseDateText(s) == Some(d) <==> exists l :: ValidLayout(l) && Render(d, l) == s
  {
    if ParseDateText(s) == Some(d) {
      var l := ParsedLayout(s);
    }
    forall l | ValidLayout(l) && Render(d, l) == s
      ensures ParseDateText(s) == Some(d)
    {
      ParseRender(d, l);
    }
  }

  // ---------------------------------------------------------------------
  // load_posts, load_and_display_posts
  // ---------------------------------------------------------------------

  /** Days from 0001-01-01 to the date's day. */
  function DayNumber(d: DateTime): int
  {
    var y := d.year - 1;
    y * 365 + y / 4 - y / 100 + y / 400 + DaysBeforeMonth(d.year, d.month) + d.day - 1
  }

  function DaysBeforeMonth(y: int, m: int): int
    decreases m
  {
    if m <= 1 then 0 else DaysBeforeMonth(y, m - 1) + DaysInMonth(y, m - 1)
  }

  /** A date as microseconds since 0001-01-01 00:00:00; `datetime` comparison is comparison of
      these numbers. */
  function Micros(d: DateTime): int
  {
    ((DayNumber(d) * 24 + d.hour) * 60 + d.minute) * 60_000_000 + d.second * 1_000_000
  }

  const ThirtyDays: int := 30 * 24 * 60 * 60 * 1_000_000

  /** `load_posts`: the posts of every file holding a list, in file order; other files are
      ignored, and a file that cannot be read raises. */
  function LoadPosts(files: seq<Result<Json>>): (r: Result<seq<Json>>)
    decreases |files|
  {
    if files == [] then Ok([])
    else
      match files[0]
      case Err(e) => Err(e)
      case Ok(data) =>
        match LoadPosts(files[1..])
        case Err(e) => Err(e)
        case Ok(rest) => Ok((if data.JArray? then data.items else []) + rest)
  }

  /** The date a post is filed under: `post.get("posted_at", {}).get("date", "")`; a post or
      `posted_at` that is not a dict raises. */
  function PostDate(post: Json): Result<DateTime>
  {
    if !post.JObject? then Err("post has no get()")
    else
      var postedAt := GetOr(post.fields, "posted_at", JObject(map[]));
      if !postedAt.JObject? then Err("posted_at has no get()")
      else Ok(ParseDate(GetOr(postedAt.fields, "date", JStr(""))))
  }

  /** The posts dated at or after `threshold`, with their dates, in input order. */
  function Recent(posts: seq<Json>, threshold: int): Result<seq<(Json, DateTime)>>
    decreases |posts|
  {
    if posts == [] then Ok([])
    else
      match PostDate(posts[0])
      case Err(e) => Err(e)
      case Ok(d) =>
        match Recent(posts[1..], threshold)
        case Err(e) => Err(e)
        case Ok(rest) => Ok((if Micros(d) >= threshold then [(posts[0], d)] else []) + rest)
  }

  /** Newest first (`sort(..., reverse=True)`, which keeps equal dates in input order). */
  function NewerOrSame(a: (Json, DateTime), b: (Json, DateTime)): bool
  {
    Micros(a.1) >= Micros(b.1)
  }

  /** `kept` put in front of the posts a result holds; an error passes through. */
  function Prepend<T>(kept: seq<T>, r: Result<seq<T>>): Result<seq<T>>
  {
    match r
    case Err(e) => Err(e)
    case Ok(rest) => Ok(kept + rest)
  }

  lemma PrependStep<T>(kept: seq<T>, x: seq<T>, r: Result<seq<T>>)
    ensures Prepend(kept, Prepend(x, r)) == Prepend(kept + x, r)
  {
    if r.Ok? {
      assert kept + (x + r.value) == (kept + x) + r.value;
    }
  }

  lemma RecentStep(posts: seq<Json>, threshold: int, i: nat)
    requires i < |posts|
    ensures PostDate(posts[i]).Err? ==> Recent(posts[i..], threshold) == Err(PostDate(posts[i]).error)
    ensures PostDate(posts[i]).Ok? ==>
      var d := PostDate(posts[i]).value;
      Recent(posts[i..], threshold)
        == Prepend(if Micros(d) >= threshold then [(posts[i], d)] else [], Recent(posts[i + 1..], threshold))
  {
    assert posts[i..][0] == posts[i] && posts[i..][1..] == posts[i + 1..];
  }

  /** The filter loop of `load_and_display_posts`. */
  method FilterRecent(posts: seq<Json>, threshold: int) returns (r: Result<seq<(Json, DateTime)>>)
    ensures r == Recent(posts, threshold)
  {
    var kept: seq<(Json, DateTime)> := [];
    var i := 0;
    assert posts[0..] == posts;
    if Recent(posts, threshold).Ok? {
      assert [] + Recent(posts, threshold).value == Recent(posts, threshold).value;
    }
    while i < |posts|
      invariant 0 <= i <= |posts|
      invariant Recent(posts, threshold) == Prepend(kept, Recent(posts[i..], threshold))
    {
      RecentStep(posts, threshold, i);
      var d := PostDate(posts[i]);
      if d.Err? {
        return Err(d.error);
      }
      var here := if Micros(d.value) >= threshold then [(posts[i], d.value)] else [];
      PrependStep(kept, here, Recent(posts[i + 1..], threshold));
      kept := kept + here;
      i := i + 1;
    }
    assert posts[i..] == [] && kept + [] == kept;
    r := Ok(kept);
  }

  /** `load_and_display_posts`: the posts of the last thirty days before `now` (in
      microseconds), newest first. */
  method LoadAndDisplay(files: seq<Result<Json>>, now: int) returns (r: Result<seq<(Json, DateTime)>>)
    ensures LoadPosts(files).Err? ==> r.Err?
    ensures LoadPosts(files).Ok? ==>
      r == match Recent(LoadPosts(files).value, now - ThirtyDays)
        case Err(e) => Err(e)
        case Ok(kept) => Ok(SortBy(kept, NewerOrSame))
  {
    var posts := LoadPosts(files);
    if posts.Err? {
      return Err(posts.error);
    }
    var kept := FilterRecent(posts.value, now - ThirtyDays);
    if kept.Err? {
      return Err(kept.error);
    }
    r := Ok(SortBy(kept.value, NewerOrSame));
  }

  /** The shown posts are exactly the recent ones, each once, newest first. */
  lemma ShownPosts(posts: seq<Json>, threshold: int)
    requires Recent(posts, threshold).Ok?
    ensures var kept := Recent(posts, threshold).value;
      && multiset(SortBy(kept, NewerOrSame)) == multiset(kept)
      && (forall i, j :: 0 <= i < j < |SortBy(kept, NewerOrSame)| ==>
            Micros(SortBy(kept, NewerOrSame)[i].1) >= Micros(SortBy(kept, NewerOrSame)[j].1))
      && (forall e :: e in kept ==> Micros(e.1) >= threshold)
  {
    var kept := Recent(posts, threshold).value;
    assert TotalPreorder(NewerOrSame);
    SortByFacts(kept, NewerOrSame);
    RecentSound(posts, threshold);
  }

  lemma {:induction false} RecentSound(posts: seq<Json>, threshold: int)
    requires Recent(posts, threshold).Ok?
    ensures forall e :: e in Recent(posts, threshold).value ==>
      (Micros(e.1) >= threshold && e.0 in posts && PostDate(e.0) == Ok(e.1))
    decreases |posts|
  {
    if posts != [] {
      RecentSound(posts[1..], threshold);
    }
  }

  /** Every post dated at or after the threshold is kept. */
  lemma {:induction false} RecentComplete(posts: seq<Json>, threshold: int)
    requires Recent(posts, threshold).Ok?
    ensures forall i :: 0 <= i < |posts| && PostDate(posts[i]).Ok? && Micros(PostDate(posts[i]).value) >= threshold ==>
      (posts[i], PostDate(posts[i]).value) in Recent(posts, threshold).value
    decreases |posts|
  {
    if posts != [] {
      RecentComplete(posts[1..], threshold);
      forall i | 1 <= i < |posts| ensures posts[i] == posts[1..][i - 1] { }
    }
  }

  /** A file that does not hold a list contributes nothing. */
  lemma {:induction false} LoadPostsSkips(files: seq<Result<Json>>)
    requires LoadPosts(files).Ok?
    ensures forall f :: f in files ==> f.Ok?
    ensures |LoadPosts(files).value| == SumLengths(files)
    decreases |files|
  {
    if files != [] {
      LoadPostsSkips(files[1..]);
    }
  }

  function SumLengths(files: seq<Result<Json>>): nat
    decreases |files|
  {
    if files == [] then 0
    else (if files[0].Ok? && files[0].value.JArray? then |files[0].value.items| else 0) + SumLengths(files[1..])
  }

  // ---------------------------------------------------------------------
  // Marking posts
  // ---------------------------------------------------------------------

  /** Row `i` of a freshly filled table shows post `i`. */
  function RowIndex(n: nat): (m: map<nat, nat>)
    ensures forall i: nat :: i in m <==> i < n
    ensures forall i :: i in m ==> m[i] == i
  {
    if n == 0 then map[] else RowIndex(n - 1)[n - 1 := n - 1]
  }

  /** The table of shown posts: row keys in table order, the row-to-post map, the cursor row,
      and the set of marked post indices. */
  class PostsScreen {
    var posts: seq<Json>
    var rowKeys: seq<nat>
    var postIndex: map<nat, nat>
    var cursor: Option<nat>
    var marked: set<int>

    ghost predicate Valid()
      reads this
    {
      && (forall k :: k in postIndex ==> postIndex[k] < |posts|)
      && (forall i :: i in marked ==> 0 <= i < |posts|)
    }

    /** The screen after `load_and_display_posts`: one row per post, row i showing post i. */
    constructor(shown: seq<Json>)
      ensures Valid() && posts == shown && marked == {} && cursor == None
      ensures forall i: nat :: i in postIndex <==> i < |shown|
      ensures |rowKeys| == |shown| && forall i :: 0 <= i < |shown| ==> rowKeys[i] == i && postIndex[i] == i
    {
      posts := shown;
      rowKeys := seq(|shown|, i requires 0 <= i < |shown| => i);
      var index := RowIndex(|shown|);
      assert forall i :: 0 <= i < |shown| ==> i in index && index[i] == i;
      postIndex := index;
      cursor := None;
      marked := {};
    }

    /** The post under the cursor, if the cursor is on a row that shows one. */
    function CursorPost(): (r: Option<nat>)
      reads this
      ensures r.Some? ==>
        (cursor.Some? && cursor.value < |rowKeys| && rowKeys[cursor.value] in postIndex
         && r.value == postIndex[rowKeys[cursor.value]])
      ensures r.None? ==> cursor.None? || cursor.value >= |rowKeys| || rowKeys[cursor.value] !in postIndex
    {
      if cursor.Some? && cursor.value < |rowKeys| && rowKeys[cursor.value] in postIndex
      then Some(postIndex[rowKeys[cursor.value]])
      else None
    }

    /** `action_mark_post`: flips the post under the cursor in or out of the marked set. */
    method MarkPost()
      requires Valid()
      modifies this
      ensures Valid()
      ensures old(CursorPost()).None? ==> marked == old(marked)
      ensures old(CursorPost()).Some? ==>
        (old(CursorPost()).value in marked <==> old(CursorPost()).value !in old(marked))
      ensures forall i :: (old(CursorPost()).None? || i != old(CursorPost()).value) ==> (i in marked <==> i in old(marked))
      ensures posts == old(posts) && rowKeys == old(rowKeys) && postIndex == old(postIndex) && cursor == old(cursor)
    {
      var target := CursorPost();
      if target.Some? {
        var idx := target.value;
        if idx in marked {
          marked := marked - {idx};
        } else {
          marked := marked + {idx};
        }
      }
    }

    /** `action_view_todos`: the marked posts in ascending index order. */
    function Todos(): (r: seq<Json>)
      requires Valid()
      reads this
      ensures |r| == |marked| == |SortedInts(marked)|
      ensures forall k :: 0 <= k < |r| ==>
        0 <= SortedInts(marked)[k] < |posts| && r[k] == posts[SortedInts(marked)[k]]
    {
      SortedIntsFacts(marked);
      var order := SortedInts(marked);
      var shown := posts;
      assert forall k :: 0 <= k < |order| ==> order[k] in marked;
      seq(|order|, k requires 0 <= k < |order| && 0 <= order[k] < |shown| => shown[order[k]])
    }
  }

  /** The to-do list visits the marked posts by strictly ascending index, each once. */
  lemma TodoOrder(marked: set<int>)
    ensures var order := SortedInts(marked);
      && (forall i, j :: 0 <= i < j < |order| ==> order[i] < order[j])
      && (forall x :: x in order <==> x in marked) && |order| == |marked|
  {
    SortedIntsFacts(marked);
  }
}
