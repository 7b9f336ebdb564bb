/**
 * The module-level helpers of chat/consumers.py: text sanitising (`clean`),
 * the outbound frame builders (`pack_sys`, `pack_msg`, `pack_match`) and the
 * command parsing at the top of `receive`.  Frames are `|`-separated strings;
 * every free-text field is sanitised so that it never contains `|`, which is
 * what lets a fixed-arity split recover the fields.
 */
module Frames {
  import opened Wrappers

  const Pipe := '|'

  /** Python's `str.isspace()`: the characters `str.strip()` removes. */
  predicate IsSpace(c: char) {
    || ('\t' <= c <= '\r')
    || ('\U{1C}' <= c <= '\U{1F}')
    || c == ' '
    || c == '\U{85}'
    || c == '\U{A0}'
    || c == '\U{1680}'
    || ('\U{2000}' <= c <= '\U{200A}')
    || c == '\U{2028}'
    || c == '\U{2029}'
    || c == '\U{202F}'
    || c == '\U{205F}'
    || c == '\U{3000}'
  }

  /** Neither starts nor ends with whitespace. */
  predicate Stripped(s: string) {
    s == [] || (!IsSpace(s[0]) && !IsSpace(s[|s| - 1]))
  }

  /** Length of the longest all-whitespace prefix. */
  function LeadingSpace(s: string): (n: nat)
    ensures n <= |s|
    ensures forall k :: 0 <= k < n ==> IsSpace(s[k])
    ensures n < |s| ==> !IsSpace(s[n])
  {
    if s == [] || !IsSpace(s[0]) then 0 else 1 + LeadingSpace(s[1..])
  }

  /** Length of the longest all-whitespace suffix. */
  function TrailingSpace(s: string): (n: nat)
    ensures n <= |s|
    ensures forall k :: |s| - n <= k < |s| ==> IsSpace(s[k])
    ensures n < |s| ==> !IsSpace(s[|s| - 1 - n])
  {
    if s == [] || !IsSpace(s[|s| - 1]) then 0 else 1 + TrailingSpace(s[..|s| - 1])
  }

  /**
   * Python's `str.strip()` with no argument: `s` without its leading and its
   * trailing run of whitespace.
   */
  function Strip(s: string): (r: string)
    ensures LeadingSpace(s) + |r| <= |s|
    ensures r == s[LeadingSpace(s)..LeadingSpace(s) + |r|]
    ensures forall k :: LeadingSpace(s) + |r| <= k < |s| ==> IsSpace(s[k])
    ensures Stripped(r)
    ensures r == [] <==> forall k :: 0 <= k < |s| ==> IsSpace(s[k])
  {
    var t := s[LeadingSpace(s)..];
    t[..|t| - TrailingSpace(t)]
  }

  /** A text that is already stripped is left as it is. */
  lemma StripStripped(s: string)
    requires Stripped(s)
    ensures Strip(s) == s
  {
    assert LeadingSpace(s) == 0;
    assert TrailingSpace(s) == 0;
  }

  /** `text.replace("|", " ")`. */
  function ReplacePipes(s: string): (r: string)
    ensures |r| == |s| && Pipe !in r
    ensures forall k :: 0 <= k < |s| ==> r[k] == (if s[k] == Pipe then ' ' else s[k])
  {
    seq(|s|, k requires 0 <= k < |s| => if s[k] == Pipe then ' ' else s[k])
  }

  /**
   * `clean` (chat/consumers.py:9-10): pipes become spaces, then the text is
   * stripped.  The result can be placed in any field of a frame.
   */
  function Clean(s: string): (r: string)
    ensures Pipe !in r
    ensures Stripped(r)
    ensures |r| <= |s|
  {
    var t := ReplacePipes(s);
    var r := Strip(t);
    assert forall k :: 0 <= k < |r| ==> r[k] == t[LeadingSpace(t) + k];
    r
  }

  /**
   * `clean` keeps the text: its result is a contiguous stretch of the text
   * with pipes replaced, and every character that is neither a pipe nor
   * whitespace survives at its place in that stretch.
   */
  lemma CleanKeepsText(s: string)
    ensures var t := ReplacePipes(s); var n := LeadingSpace(t);
      n + |Clean(s)| <= |s| && Clean(s) == t[n..n + |Clean(s)|]
    ensures forall k :: 0 <= k < |s| && s[k] != Pipe && !IsSpace(s[k]) ==>
      LeadingSpace(ReplacePipes(s)) <= k < LeadingSpace(ReplacePipes(s)) + |Clean(s)|
      && Clean(s)[k - LeadingSpace(ReplacePipes(s))] == s[k]
  {
    var t := ReplacePipes(s);
    var n := LeadingSpace(t);
    var r := Clean(s);
    forall k | 0 <= k < |s| && s[k] != Pipe && !IsSpace(s[k])
      ensures n <= k < n + |r| && r[k - n] == s[k]
    {
      assert t[k] == s[k];
    }
  }

  /** A text is clean when it has no pipe and no outer whitespace. */
  predicate IsClean(s: string) {
    Pipe !in s && Stripped(s)
  }

  /** The fixed points of `Clean` are exactly the clean texts. */
  lemma CleanFixedPoints(s: string)
    ensures Clean(s) == s <==> IsClean(s)
  {
    if IsClean(s) {
      assert ReplacePipes(s) == s;
      StripStripped(s);
    }
  }

  /** `clean(clean(s)) == clean(s)`. */
  lemma CleanIdempotent(s: string)
    ensures Clean(Clean(s)) == Clean(s)
  {
    CleanFixedPoints(Clean(s));
  }

  /** Python's `str.split("|")`: the pipe-separated fields of `s`. */
  function Split(s: string): (fields: seq<string>)
    ensures fields != []
    ensures forall k :: 0 <= k < |fields| ==> Pipe !in fields[k]
  {
    if s == [] then [""]
    else if s[0] == Pipe then [""] + Split(s[1..])
    else
      var rest := Split(s[1..]);
      [[s[0]] + rest[0]] + rest[1..]
  }

  /** There is one field more than there are pipes. */
  lemma {:induction false} SplitCount(s: string)
    ensures |Split(s)| == multiset(s)[Pipe] + 1
  {
    if s != [] {
      SplitCount(s[1..]);
      assert s == [s[0]] + s[1..];
    }
  }

  /** A text without pipes is a single field. */
  lemma {:induction false} SplitNoPipe(a: string)
    requires Pipe !in a
    ensures Split(a) == [a]
  {
    if a != [] {
      assert Pipe !in a[1..];
      SplitNoPipe(a[1..]);
      assert [a[0]] + a[1..] == a;
    }
  }

  /** Splitting `a|b`, where `a` has no pipe, yields `a` followed by the fields of `b`. */
  lemma {:induction false} SplitField(a: string, b: string)
    requires Pipe !in a
    ensures Split(a + [Pipe] + b) == [a] + Split(b)
  {
    var s := a + [Pipe] + b;
    if a == [] {
      assert s == [Pipe] + b && s[0] == Pipe && s[1..] == b;
    } else {
      assert s[0] == a[0] != Pipe && s[1..] == a[1..] + [Pipe] + b;
      SplitField(a[1..], b);
      var rest := Split(s[1..]);
      assert rest[0] == a[1..] && rest[1..] == Split(b);
      assert Split(s) == [[s[0]] + rest[0]] + rest[1..];
      assert [a[0]] + a[1..] == a;
    }
  }

  /**
   * Python's `str.split("|", 1)`: the text before the first pipe and, when
   * there is a pipe, the text after it.
   */
  function SplitOnce(s: string): (parts: seq<string>)
    ensures 1 <= |parts| <= 2
    ensures |parts| == 1 <==> Pipe !in s
    ensures |parts| == 1 ==> parts[0] == s
    ensures |parts| == 2 ==> Pipe !in parts[0] && s == parts[0] + [Pipe] + parts[1]
  {
    if s == [] then [s]
    else if s[0] == Pipe then
      assert s == [] + [Pipe] + s[1..];
      ["", s[1..]]
    else
      var rest := SplitOnce(s[1..]);
      assert s == [s[0]] + s[1..];
      if |rest| == 1 then [s]
      else
        assert s == ([s[0]] + rest[0]) + [Pipe] + rest[1];
        [[s[0]] + rest[0], rest[1]]
  }

  /** `SplitOnce` of `a|b` with `a` pipe-free is `[a, b]`, whatever `b` holds. */
  lemma {:induction false} SplitOnceField(a: string, b: string)
    requires Pipe !in a
    ensures SplitOnce(a + [Pipe] + b) == [a, b]
  {
    var s := a + [Pipe] + b;
    if a == [] {
      assert s == [Pipe] + b && s[1..] == b;
    } else {
      assert Pipe !in a[1..];
      SplitOnceField(a[1..], b);
      assert s[1..] == a[1..] + [Pipe] + b;
      assert [a[0]] + a[1..] == a;
    }
  }

  // ---------------------------------------------------------------------------
  // Decimal user ids (`str(uid)` in pack_match)

  function DigitChar(d: nat): (c: char)
    requires d < 10
    ensures '0' <= c <= '9'
  {
    "0123456789"[d]
  }

  function DigitValue(c: char): nat {
    if '0' <= c <= '9' then (c as int - '0' as int) as nat else 0
  }

  function NatToString(n: nat): (r: string)
    ensures r != []
    ensures forall k :: 0 <= k < |r| ==> '0' <= r[k] <= '9'
  {
    if n < 10 then [DigitChar(n)] else NatToString(n / 10) + [DigitChar(n % 10)]
  }

  /** Python's `str(i)` for an integer: optional minus sign, then decimal digits. */
  function IntToString(i: int): (r: string)
    ensures r != [] && Pipe !in r
  {
    if i < 0 then "-" + NatToString(-i) else NatToString(i)
  }

  function ParseNat(s: string): nat {
    if s == [] then 0 else 10 * ParseNat(s[..|s| - 1]) + DigitValue(s[|s| - 1])
  }

  /** Reads back a decimal integer as `int(...)` does. */
  function ParseInt(s: string): int {
    if s != [] && s[0] == '-' then -(ParseNat(s[1..]) as int) else ParseNat(s)
  }

  lemma DigitRoundTrip(d: nat)
    requires d < 10
    ensures DigitValue(DigitChar(d)) == d
  {
    assert DigitChar(d) as int - '0' as int == d by {
      var ds := "0123456789";
      assert ds[0] == '0' && ds[1] == '1' && ds[2] == '2' && ds[3] == '3' && ds[4] == '4';
      assert ds[5] == '5' && ds[6] == '6' && ds[7] == '7' && ds[8] == '8' && ds[9] == '9';
    }
  }

  lemma {:induction false} NatRoundTrip(n: nat)
    ensures ParseNat(NatToString(n)) == n
  {
    if n < 10 {
      DigitRoundTrip(n);
      assert [DigitChar(n)][..0] == [];
    } else {
      NatRoundTrip(n / 10);
      DigitRoundTrip(n % 10);
      var s := NatToString(n);
      assert s[..|s| - 1] == NatToString(n / 10);
    }
  }

  /** The user id in a MATCH frame reads back as the same integer. */
  lemma IntRoundTrip(i: int)
    ensures ParseInt(IntToString(i)) == i
  {
    var digits := NatToString(if i < 0 then -i else i);
    NatRoundTrip(if i < 0 then -i else i);
    assert digits[0] != '-';
    if i < 0 {
      var s := "-" + digits;
      assert IntToString(i) == s;
      assert s[0] == '-' && s[1..] == digits;
    }
  }

  // ---------------------------------------------------------------------------
  // Outbound frames

  /** `pack_sys` (chat/consumers.py:13-14): `SYS|<clean message>`. */
  function PackSys(message: string): (f: string)
    ensures SplitOnce(f) == ["SYS", Clean(message)]
    ensures Split(f) == ["SYS", Clean(message)]
  {
    var f := "SYS" + [Pipe] + Clean(message);
    SplitOnceField("SYS", Clean(message));
    SplitField("SYS", Clean(message));
    SplitNoPipe(Clean(message));
    f
  }

  /** `pack_msg` (chat/consumers.py:17-18): `MSG|<clean nick>|<clean text>`. */
  function PackMsg(nick: string, msg: string): (f: string)
    ensures Split(f) == ["MSG", Clean(nick), Clean(msg)]
  {
    var tail := Clean(nick) + [Pipe] + Clean(msg);
    var f := "MSG" + [Pipe] + tail;
    SplitField("MSG", tail);
    SplitField(Clean(nick), Clean(msg));
    SplitNoPipe(Clean(msg));
    f
  }

  /** `pack_msg(n, m)` contains exactly two pipes. */
  lemma PackMsgPipes(n: string, m: string)
    ensures multiset(PackMsg(n, m))[Pipe] == 2
  {
    SplitCount(PackMsg(n, m));
  }

  /** The third field of a MATCH frame: the peer's id, or empty when it has none. */
  function UserIdField(uid: Option<int>): (t: string)
    ensures Pipe !in t
    ensures t == "" <==> uid.None?
    ensures uid.Some? ==> ParseInt(t) == uid.value
  {
    match uid
    case None => ""
    case Some(i) => IntRoundTrip(i); IntToString(i)
  }

  /** `pack_match` (chat/consumers.py:21-23): `MATCH|<clean nick>|<uid or empty>`. */
  function PackMatch(nick: string, uid: Option<int>): (f: string)
    ensures Split(f) == ["MATCH", Clean(nick), UserIdField(uid)]
  {
    var tail := Clean(nick) + [Pipe] + UserIdField(uid);
    var f := "MATCH" + [Pipe] + tail;
    SplitField("MATCH", tail);
    SplitField(Clean(nick), UserIdField(uid));
    SplitNoPipe(UserIdField(uid));
    f
  }

  /**
   * An outbound text frame, by the helper that builds it; `Wire` gives the
   * text that goes over the socket.  `RawFrame` is a frame written out by
   * hand (the `PINTEREST|` ping).
   */
  datatype Frame =
    | SysFrame(message: string)
    | MsgFrame(nick: string, message: string)
    | MatchFrame(nick: string, uid: Option<int>)
    | RawFrame(text: string)

  /** Every built frame names its kind in the first field and splits back into its cleaned fields. */
  function Wire(f: Frame): (t: string)
    ensures f.SysFrame? ==> Split(t) == ["SYS", Clean(f.message)]
    ensures f.MsgFrame? ==> Split(t) == ["MSG", Clean(f.nick), Clean(f.message)]
    ensures f.MatchFrame? ==> Split(t) == ["MATCH", Clean(f.nick), UserIdField(f.uid)]
    ensures f.RawFrame? ==> t == f.text
  {
    match f
    case SysFrame(m) => PackSys(m)
    case MsgFrame(n, m) => PackMsg(n, m)
    case MatchFrame(n, u) => PackMatch(n, u)
    case RawFrame(t) => t
  }

  /** A built frame carries exactly as many pipes as its kind has field separators. */
  lemma FramePipes(f: Frame)
    requires !f.RawFrame?
    ensures multiset(Wire(f))[Pipe] == if f.SysFrame? then 1 else 2
  {
    SplitCount(Wire(f));
  }

  // ---------------------------------------------------------------------------
  // Inbound commands (the head of `receive`, chat/consumers.py:70-83, 94, 100)

  /**
   * Python's `str.upper()` for one character, as far as it can make an ASCII
   * command word: a-z, and the non-ASCII characters whose upper case is made of
   * ASCII letters.  Every other character is kept.
   */
  function UpperChar(c: char): (r: string)
    ensures 1 <= |r| <= 3
    ensures 'a' <= c <= 'z' ==> r == [(c as int - 32) as char]
    ensures c as int < 128 && !('a' <= c <= 'z') ==> r == [c]
  {
    if 'a' <= c <= 'z' then [(c as int - 32) as char]
    else if c == '\U{131}' then "I"
    else if c == '\U{17F}' then "S"
    else if c == '\U{DF}' then "SS"
    else if c == '\U{FB00}' then "FF"
    else if c == '\U{FB01}' then "FI"
    else if c == '\U{FB02}' then "FL"
    else if c == '\U{FB03}' then "FFI"
    else if c == '\U{FB04}' then "FFL"
    else if c == '\U{FB05}' || c == '\U{FB06}' then "ST"
    else [c]
  }

  /** `str.upper()`, character by character. */
  function Upper(s: string): (r: string)
    ensures |s| <= |r| <= 3 * |s|
  {
    if s == [] then [] else UpperChar(s[0]) + Upper(s[1..])
  }

  /** Upper-casing distributes over concatenation, so a text can be upper-cased in pieces. */
  lemma {:induction false} UpperConcat(a: string, b: string)
    ensures Upper(a + b) == Upper(a) + Upper(b)
  {
    if a == [] {
      assert a + b == b;
    } else {
      assert (a + b)[0] == a[0] && (a + b)[1..] == a[1..] + b;
      UpperConcat(a[1..], b);
      assert Upper(a + b) == UpperChar(a[0]) + (Upper(a[1..]) + Upper(b));
    }
  }

  /** `p` spells the upper-case ASCII word `w`, each letter in either case. */
  predicate SpellsInAnyCase(p: string, w: string) {
    && |p| == |w|
    && forall k :: 0 <= k < |w| ==> 'A' <= w[k] <= 'Z' && (p[k] == w[k] || p[k] as int == w[k] as int + 32)
  }

  /** Upper-casing maps every mixed-case spelling of a word to the word. */
  lemma {:induction false} UpperOfSpelling(p: string, w: string)
    requires SpellsInAnyCase(p, w)
    ensures Upper(p) == w
  {
    if p != [] {
      assert SpellsInAnyCase(p[1..], w[1..]);
      UpperOfSpelling(p[1..], w[1..]);
      assert [w[0]] + w[1..] == w;
    }
  }

  /** What `receive` acts on; `Ignored` covers every frame it drops unread. */
  datatype Command = Ignored | Msg(text: string) | Next | Interest

  /** The command word: text before the first pipe, upper-cased and stripped. */
  function CommandWord(s: string): (w: string)
    ensures Stripped(w)
  {
    Strip(Upper(SplitOnce(s)[0]))
  }

  /**
   * The parsing half of `receive`: no text or empty text is dropped; MSG
   * carries its argument stripped (empty when there is no pipe); NEXT and
   * INTEREST take no argument; any other word is dropped.
   */
  function Parse(text: Option<string>): (c: Command)
    ensures text.None? || text == Some("") ==> c == Ignored
    ensures c.Msg? ==> Stripped(c.text)
  {
    if text.None? || text.value == "" then Ignored
    else
      var parts := SplitOnce(text.value);
      var cmd := CommandWord(text.value);
      if cmd == "MSG" then Msg(if |parts| > 1 then Strip(parts[1]) else "")
      else if cmd == "NEXT" then Next
      else if cmd == "INTEREST" then Interest
      else Ignored
  }

  /**
   * A frame `p|t` whose head `p` reads, after upper-casing and trimming, as a
   * command word is that command; the MSG text is `t` stripped, pipes and all.
   * Any other head is dropped.
   */
  lemma ParseFramed(p: string, t: string)
    requires Pipe !in p
    ensures var w := Strip(Upper(p));
      Parse(Some(p + [Pipe] + t)) ==
        if w == "MSG" then Msg(Strip(t))
        else if w == "NEXT" then Next
        else if w == "INTEREST" then Interest
        else Ignored
  {
    SplitOnceField(p, t);
  }

  /** A non-empty frame without any pipe: MSG then has empty text. */
  lemma ParseBare(p: string)
    requires Pipe !in p && p != ""
    ensures var w := Strip(Upper(p));
      Parse(Some(p)) ==
        if w == "MSG" then Msg("")
        else if w == "NEXT" then Next
        else if w == "INTEREST" then Interest
        else Ignored
  {
  }

  /** Case-insensitivity: a MSG command word spelt in any case is MSG. */
  lemma ParseMsgAnyCase(p: string, t: string)
    requires SpellsInAnyCase(p, "MSG")
    ensures Parse(Some(p + [Pipe] + t)) == Msg(Strip(t))
  {
    UpperOfSpelling(p, "MSG");
    StripStripped("MSG");
    assert Pipe !in p by {
      forall k | 0 <= k < |p| ensures p[k] != Pipe {}
    }
    ParseFramed(p, t);
  }
}
