/** The message on the wire: how PublishJSON writes a JobWorkerMessage, how parseJobWorkerMessage
    reads one back, and handleCreateJob, which publishes it. Texts are sequences of Unicode scalar
    values. */
module Codec {
  import opened Basics

  datatype Message = Message(videoId: string, outputBucketPath: string)

  // ---------------------------------------------------------------- writing

  function HexDigit(n: nat): char
    requires n < 16
  {
    "0123456789abcdef"[n]
  }

  function Hex4(n: nat): string
    requires n < 0x10000
  {
    [HexDigit(n / 4096), HexDigit(n / 256 % 16), HexDigit(n / 16 % 16), HexDigit(n % 16)]
  }

  /** The letter of a two-character escape, for the characters that have one. */
  function Short(c: char): Option<char> {
    match c
    case '\"' => Some('\"')
    case '\\' => Some('\\')
    case '\n' => Some('n')
    case '\r' => Some('r')
    case '\t' => Some('t')
    case _ => if c as int == 8 then Some('b') else if c as int == 12 then Some('f') else None
  }

  /** encoding/json also escapes the characters that matter in HTML and JavaScript. */
  predicate NeedsHex(c: char) {
    c as int < 0x20 || c == '<' || c == '>' || c == '&' || c as int == 0x2028 || c as int == 0x2029
  }

  function EscapeChar(c: char): string {
    if Short(c).Some? then ['\\', Short(c).value]
    else if NeedsHex(c) then ['\\', 'u'] + Hex4(c as int)
    else [c]
  }

  function Escape(s: string): string {
    if s == "" then "" else EscapeChar(s[0]) + Escape(s[1..])
  }

  function Quote(s: string): string { "\"" + Escape(s) + "\"" }

  /** json.Marshal of a JobWorkerMessage */
  function Encode(m: Message): string {
    "{" + (Quote("video_id") + (":" + (Quote(m.videoId) + (","
    + (Quote("output_bucket_path") + (":" + (Quote(m.outputBucketPath) + "}")))))))
  }

  // ---------------------------------------------------------------- reading

  function HexValue(c: char): Option<nat> {
    if '0' <= c <= '9' then Some((c as int) - ('0' as int))
    else if 'a' <= c <= 'f' then Some((c as int) - ('a' as int) + 10)
    else if 'A' <= c <= 'F' then Some((c as int) - ('A' as int) + 10)
    else None
  }

  function ReadHex4(s: string): (r: Option<nat>)
    ensures r.Some? ==> |s| >= 4 && r.value < 0x10000
  {
    if |s| < 4 then None
    else
      var (a, b, c, d) := (HexValue(s[0]), HexValue(s[1]), HexValue(s[2]), HexValue(s[3]));
      if a.None? || b.None? || c.None? || d.None? then None
      else if a.value > 15 || b.value > 15 || c.value > 15 || d.value > 15 then None
      else Some(((a.value * 16 + b.value) * 16 + c.value) * 16 + d.value)
  }

  function Unshort(c: char): Option<char> {
    match c
    case '\"' => Some('\"')
    case '\\' => Some('\\')
    case '/' => Some('/')
    case 'n' => Some('\n')
    case 'r' => Some('\r')
    case 't' => Some('\t')
    case 'b' => Some(8 as char)
    case 'f' => Some(12 as char)
    case _ => None
  }

  predicate HighSurrogate(n: nat) { 0xD800 <= n < 0xDC00 }

  predicate LowSurrogate(n: nat) { 0xDC00 <= n < 0xE000 }

  /** The next character of a string literal and what follows it; surrogate halves that do not
      pair up read as U+FFFD. */
  function ReadChar(s: string): (r: Option<(char, string)>)
    ensures r.Some? ==> |r.value.1| < |s|
  {
    if s == "" || s[0] as int < 0x20 || s[0] == '\"' then None
    else if s[0] != '\\' then Some((s[0], s[1..]))
    else if |s| < 2 then None
    else if s[1] != 'u' then
      var c := Unshort(s[1]);
      if c.Some? then Some((c.value, s[2..])) else None
    else
      var n := ReadHex4(s[2..]);
      if n.None? then None
      else
        var rest := s[6..];
        if HighSurrogate(n.value) then
          var low := if |rest| >= 2 && rest[0] == '\\' && rest[1] == 'u' then ReadHex4(rest[2..]) else None;
          if low.Some? && LowSurrogate(low.value) then
            Some(((0x10000 + (n.value - 0xD800) * 0x400 + (low.value - 0xDC00)) as char, rest[6..]))
          else Some((0xFFFD as char, rest))
        else if LowSurrogate(n.value) then Some((0xFFFD as char, rest))
        else Some((n.value as char, rest))
  }

  /** A string literal after its opening quote. */
  function ReadString(s: string): (r: Option<(string, string)>)
    ensures r.Some? ==> |r.value.1| < |s|
    decreases |s|
  {
    if s != "" && s[0] == '\"' then Some(("", s[1..]))
    else
      var c := ReadChar(s);
      if c.None? then None
      else
        var r := ReadString(c.value.1);
        if r.None? then None else Some(([c.value.0] + r.value.0, r.value.1))
  }

  function SkipSpace(s: string): (r: string)
    ensures |r| <= |s|
  {
    if s != "" && (s[0] == ' ' || s[0] == '\t' || s[0] == '\n' || s[0] == '\r') then SkipSpace(s[1..]) else s
  }

  /** White space, then one given character. */
  function Expect(c: char, s: string): (r: Option<string>)
    ensures r.Some? ==> |r.value| < |s|
  {
    var t := SkipSpace(s);
    if t != "" && t[0] == c then Some(t[1..]) else None
  }

  /** White space, then a string literal. */
  function ReadQuoted(s: string): (r: Option<(string, string)>)
    ensures r.Some? ==> |r.value.1| < |s|
  {
    var t := Expect('\"', s);
    if t.None? then None else ReadString(t.value)
  }

  /** Another member of the object sets its field; members with other names are ignored. */
  function SetField(m: Message, key: string, value: string): Message {
    if key == "video_id" then m.(videoId := value)
    else if key == "output_bucket_path" then m.(outputBucketPath := value)
    else m
  }

  function ReadMembers(m: Message, s: string): Option<(Message, string)>
    decreases |s|
  {
    var key := ReadQuoted(s);
    if key.None? then None
    else
      var colon := Expect(':', key.value.1);
      if colon.None? then None
      else
        var value := ReadQuoted(colon.value);
        if value.None? then None
        else
          var n := SetField(m, key.value.0, value.value.0);
          var comma := Expect(',', value.value.1);
          if comma.Some? then ReadMembers(n, comma.value)
          else
            var end := Expect('}', value.value.1);
            if end.Some? then Some((n, end.value)) else None
  }

  /** json.Unmarshal into a JobWorkerMessage, for objects whose members are strings. */
  function Unmarshal(s: string): Option<Message> {
    var open := Expect('{', s);
    if open.None? then None
    else if Expect('}', open.value).Some? then
      if SkipSpace(Expect('}', open.value).value) == "" then Some(Message("", "")) else None
    else
      var r := ReadMembers(Message("", ""), open.value);
      if r.Some? && SkipSpace(r.value.1) == "" then Some(r.value.0) else None
  }

  /** parseJobWorkerMessage */
  function Parse(payload: string): (r: Result<Message>)
    ensures r.Ok? ==> r.value.videoId != "" && r.value.outputBucketPath != ""
    ensures r.Err? ==> r.text != ""
  {
    var m := Unmarshal(payload);
    if m.None? then Err("invalid JSON")
    else if m.value.videoId == "" then Err("video_id is required")
    else if m.value.outputBucketPath == "" then Err("output_bucket_path is required")
    else Ok(m.value)
  }

  // ---------------------------------------------------------------- the round trip

  lemma HexRoundTrip(n: nat, rest: string)
    requires n < 0x10000
    ensures ReadHex4(Hex4(n) + rest) == Some(n)
  {
    var (a, b, c, d) := (n / 4096, n / 256 % 16, n / 16 % 16, n % 16);
    DigitsAddUp(n);
    DigitsRoundTrip(a, b, c, d, rest);
    assert Hex4(n) == [HexDigit(a), HexDigit(b), HexDigit(c), HexDigit(d)];
  }

  lemma DigitsAddUp(n: nat)
    requires n < 0x10000
    ensures n / 4096 < 16
    ensures (((n / 4096) * 16 + n / 256 % 16) * 16 + n / 16 % 16) * 16 + n % 16 == n
  {
    assert n / 16 / 16 == n / 256 && n / 256 / 16 == n / 4096;
  }

  lemma DigitsRoundTrip(a: nat, b: nat, c: nat, d: nat, rest: string)
    requires a < 16 && b < 16 && c < 16 && d < 16
    ensures ReadHex4([HexDigit(a), HexDigit(b), HexDigit(c), HexDigit(d)] + rest) == Some(((a * 16 + b) * 16 + c) * 16 + d)
  {
    DigitRoundTrip(a);
    DigitRoundTrip(b);
    DigitRoundTrip(c);
    DigitRoundTrip(d);
  }

  lemma DigitRoundTrip(n: nat)
    requires n < 16
    ensures HexValue(HexDigit(n)) == Some(n)
  {
  }

  lemma ShortRoundTrip(c: char, rest: string)
    requires Short(c).Some?
    ensures ReadChar(['\\', Short(c).value] + rest) == Some((c, rest))
  {
    var s := ['\\', Short(c).value] + rest;
    assert s[0] == '\\' && s[1] == Short(c).value && s[2..] == rest;
  }

  lemma UnicodeRoundTrip(n: nat, rest: string)
    requires n < 0xD800
    ensures ReadChar(['\\', 'u'] + Hex4(n) + rest) == Some((n as char, rest))
  {
    var s := ['\\', 'u'] + Hex4(n) + rest;
    assert s[0] == '\\' && s[1] == 'u';
    assert s[2..] == Hex4(n) + rest && s[6..] == rest;
    HexRoundTrip(n, rest);
  }

  lemma HexCharRoundTrip(c: char, rest: string)
    requires NeedsHex(c)
    ensures ReadChar(['\\', 'u'] + Hex4(c as int) + rest) == Some((c, rest))
  {
    UnicodeRoundTrip(c as int, rest);
  }

  /** Reading what EscapeChar wrote gives the character back. */
  lemma CharRoundTrip(c: char, rest: string)
    ensures ReadChar(EscapeChar(c) + rest) == Some((c, rest))
    ensures (EscapeChar(c) + rest)[0] != '\"'
  {
    if Short(c).Some? {
      ShortRoundTrip(c, rest);
    } else if NeedsHex(c) {
      HexCharRoundTrip(c, rest);
    } else {
      assert ([c] + rest)[1..] == rest;
    }
  }

  lemma {:induction false} StringRoundTrip(v: string, rest: string)
    ensures ReadString(Escape(v) + ("\"" + rest)) == Some((v, rest))
    decreases |v|
  {
    var tail := "\"" + rest;
    if v == "" {
      assert Escape(v) + tail == tail && tail[1..] == rest;
    } else {
      assert Escape(v) + tail == EscapeChar(v[0]) + (Escape(v[1..]) + tail);
      CharRoundTrip(v[0], Escape(v[1..]) + tail);
      StringRoundTrip(v[1..], rest);
      assert [v[0]] + v[1..] == v;
    }
  }

  lemma QuotedRoundTrip(v: string, rest: string)
    ensures ReadQuoted(Quote(v) + rest) == Some((v, rest))
  {
    var s := Quote(v) + rest;
    assert s == "\"" + (Escape(v) + ("\"" + rest));
    assert s[1..] == Escape(v) + ("\"" + rest);
    StringRoundTrip(v, rest);
  }

  lemma ExpectFirst(c: char, rest: string)
    requires c != ' ' && c != '\t' && c != '\n' && c != '\r'
    ensures Expect(c, [c] + rest) == Some(rest)
    ensures forall d: char | d != c :: Expect(d, [c] + rest) == None
  {
    assert ([c] + rest)[1..] == rest;
  }

  /** One member read back, up to what follows it. */
  lemma MemberRoundTrip(m: Message, key: string, value: string, rest: string)
    ensures ReadMembers(m, Quote(key) + (":" + (Quote(value) + ("}" + rest)))) == Some((SetField(m, key, value), rest))
    ensures ReadMembers(m, Quote(key) + (":" + (Quote(value) + ("," + rest)))) == ReadMembers(SetField(m, key, value), rest)
  {
    var one, other := "}" + rest, "," + rest;
    QuotedRoundTrip(key, ":" + (Quote(value) + one));
    QuotedRoundTrip(key, ":" + (Quote(value) + other));
    ExpectFirst(':', Quote(value) + one);
    ExpectFirst(':', Quote(value) + other);
    QuotedRoundTrip(value, one);
    QuotedRoundTrip(value, other);
    ExpectFirst('}', rest);
    ExpectFirst(',', rest);
  }

  function Members(m: Message): string {
    Quote("video_id") + (":" + (Quote(m.videoId) + ("," + LastMember(m))))
  }

  function LastMember(m: Message): string {
    Quote("output_bucket_path") + (":" + (Quote(m.outputBucketPath) + ("}" + "")))
  }

  lemma MembersRoundTrip(m: Message)
    ensures ReadMembers(Message("", ""), Members(m)) == Some((m, ""))
  {
    MemberRoundTrip(Message("", ""), "video_id", m.videoId, LastMember(m));
    MemberRoundTrip(Message(m.videoId, ""), "output_bucket_path", m.outputBucketPath, "");
  }

  lemma EncodeShape(m: Message)
    ensures Encode(m) == "{" + Members(m) && Members(m) != "" && Members(m)[0] == '\"'
  {
    assert "}" + "" == "}";
  }

  lemma UnmarshalBraced(s: string, m: Message)
    requires s != "" && s[0] == '\"' && ReadMembers(Message("", ""), s) == Some((m, ""))
    ensures Unmarshal("{" + s) == Some(m)
  {
    ExpectFirst('{', s);
    assert s == ['\"'] + s[1..];
    ExpectFirst('\"', s[1..]);
  }

  /** Every message, whatever characters its strings hold, survives the wire. */
  lemma UnmarshalOfEncode(m: Message)
    ensures Unmarshal(Encode(m)) == Some(m)
  {
    EncodeShape(m);
    MembersRoundTrip(m);
    UnmarshalBraced(Members(m), m);
  }

  /** parseJobWorkerMessage accepts an encoded message exactly when both fields are non-empty, and
      then gives the very same strings back. */
  lemma ParseOfEncode(m: Message)
    ensures Parse(Encode(m)).Ok? <==> m.videoId != "" && m.outputBucketPath != ""
    ensures Parse(Encode(m)).Ok? ==> Parse(Encode(m)).value == m
  {
    UnmarshalOfEncode(m);
  }

  // ---------------------------------------------------------------- other texts

  /** White space between tokens. */
  predicate Blank(w: string) {
    forall c | c in w :: c == ' ' || c == '\t' || c == '\n' || c == '\r'
  }

  lemma {:induction false} SkipBlank(w: string, s: string)
    requires Blank(w)
    ensures SkipSpace(w + s) == SkipSpace(s)
  {
    if w == "" {
      assert w + s == s;
    } else {
      assert w[0] in w && (w + s)[1..] == w[1..] + s;
      assert forall c | c in w[1..] :: c in w;
      SkipBlank(w[1..], s);
    }
  }

  lemma ExpectAfter(w: string, c: char, rest: string)
    requires Blank(w) && c != ' ' && c != '\t' && c != '\n' && c != '\r'
    ensures Expect(c, w + ([c] + rest)) == Some(rest)
    ensures forall d: char | d != c :: Expect(d, w + ([c] + rest)) == None
  {
    SkipBlank(w, [c] + rest);
    ExpectFirst(c, rest);
  }

  lemma QuotedAfter(w: string, v: string, rest: string)
    requires Blank(w)
    ensures ReadQuoted(w + (Quote(v) + rest)) == Some((v, rest))
  {
    SkipBlank(w, Quote(v) + rest);
    QuotedRoundTrip(v, rest);
  }

  /** A member with white space `w` before each of its tokens and before what follows. */
  function Spaced(key: string, value: string, w: string, end: string): string {
    w + (Quote(key) + (w + (":" + (w + (Quote(value) + (w + end))))))
  }

  lemma SpacedMember(m: Message, key: string, value: string, w: string, rest: string)
    requires Blank(w)
    ensures ReadMembers(m, Spaced(key, value, w, "}" + rest)) == Some((SetField(m, key, value), rest))
    ensures ReadMembers(m, Spaced(key, value, w, "," + rest)) == ReadMembers(SetField(m, key, value), rest)
  {
    var one, other := "}" + rest, "," + rest;
    QuotedAfter(w, key, w + (":" + (w + (Quote(value) + (w + one)))));
    QuotedAfter(w, key, w + (":" + (w + (Quote(value) + (w + other)))));
    ExpectAfter(w, ':', w + (Quote(value) + (w + one)));
    ExpectAfter(w, ':', w + (Quote(value) + (w + other)));
    QuotedAfter(w, value, w + one);
    QuotedAfter(w, value, w + other);
    ExpectAfter(w, '}', rest);
    ExpectAfter(w, ',', rest);
  }

  /** Whatever the white space between tokens, in whichever order the fields come, and whatever other
      member is there: the message is read. */
  lemma ParseOfOthers(m: Message, w: string, key: string, value: string)
    requires Blank(w) && key != "video_id" && key != "output_bucket_path"
    requires m.videoId != "" && m.outputBucketPath != ""
    ensures var path := Spaced("output_bucket_path", m.outputBucketPath, w, "}" + w);
            var id := Spaced("video_id", m.videoId, w, "," + path);
            Parse(w + ("{" + Spaced(key, value, w, "," + id))) == Ok(m)
    ensures var id := Spaced("video_id", m.videoId, w, "}" + w);
            Parse(w + ("{" + Spaced("output_bucket_path", m.outputBucketPath, w, "," + id))) == Ok(m)
  {
    var empty := Message("", "");
    var path := Spaced("output_bucket_path", m.outputBucketPath, w, "}" + w);
    var id := Spaced("video_id", m.videoId, w, "," + path);
    SpacedMember(empty, key, value, w, id);
    SpacedMember(empty, "video_id", m.videoId, w, path);
    SpacedMember(Message(m.videoId, ""), "output_bucket_path", m.outputBucketPath, w, w);
    OpensObject(w, key, value, "," + id, m, w);
    var last := Spaced("video_id", m.videoId, w, "}" + w);
    SpacedMember(empty, "output_bucket_path", m.outputBucketPath, w, last);
    SpacedMember(Message("", m.outputBucketPath), "video_id", m.videoId, w, w);
    OpensObject(w, "output_bucket_path", m.outputBucketPath, "," + last, m, w);
  }

  /** An object whose members are read is read. */
  lemma OpensObject(w: string, key: string, value: string, end: string, m: Message, rest: string)
    requires Blank(w) && Blank(rest)
    requires ReadMembers(Message("", ""), Spaced(key, value, w, end)) == Some((m, rest))
    ensures Unmarshal(w + ("{" + Spaced(key, value, w, end))) == Some(m)
  {
    ExpectAfter(w, '{', Spaced(key, value, w, end));
    NoBrace(w, key, value, end);
    SkipBlank(rest, "");
    assert rest + "" == rest;
  }

  lemma NoBrace(w: string, key: string, value: string, end: string)
    requires Blank(w)
    ensures Expect('}', Spaced(key, value, w, end)) == None
  {
    var tail := Escape(key) + ("\"" + (w + (":" + (w + (Quote(value) + (w + end))))));
    assert Quote(key) + (w + (":" + (w + (Quote(value) + (w + end))))) == ['\"'] + tail;
    ExpectAfter(w, '\"', tail);
  }

  /** The four literals of a message with the punctuation between them. */
  function Framed(a: string, b: string, c: string, d: string, end: string): string {
    "{" + (a + (":" + (b + ("," + (c + (":" + (d + end)))))))
  }

  lemma FramedTail(a: string, b: string, c: string, d: string, end: string, rest: string)
    ensures Framed(a, b, c, d, end) + rest == Framed(a, b, c, d, end + rest)
  {
    var three := d + end;
    assert d + (end + rest) == three + rest;
    var two := c + (":" + three);
    assert c + (":" + (three + rest)) == two + rest;
    assert a + (":" + (b + ("," + (two + rest)))) == a + (":" + (b + ("," + two))) + rest;
  }

  lemma EncodeIsFramed(m: Message)
    ensures Encode(m) ==
            Framed(Quote("video_id"), Quote(m.videoId), Quote("output_bucket_path"), Quote(m.outputBucketPath), "}")
  {
  }

  /** Anything but white space after the object makes the text invalid. */
  lemma TailIsRefused(m: Message, rest: string)
    requires SkipSpace(rest) != ""
    ensures Parse(Encode(m) + rest).Err?
  {
    EncodeIsFramed(m);
    FramedTail(Quote("video_id"), Quote(m.videoId), Quote("output_bucket_path"), Quote(m.outputBucketPath), "}", rest);
    TwoMembers(m, "video_id", "output_bucket_path", rest);
    RefusesTail(m, rest);
  }

  /** Two members are read back, and what follows them is left. */
  lemma TwoMembers(m: Message, key: string, other: string, rest: string)
    ensures var last := Quote(other) + (":" + (Quote(m.outputBucketPath) + ("}" + rest)));
            ReadMembers(Message("", ""), Quote(key) + (":" + (Quote(m.videoId) + ("," + last))))
            == Some((SetField(SetField(Message("", ""), key, m.videoId), other, m.outputBucketPath), rest))
  {
    var last := Quote(other) + (":" + (Quote(m.outputBucketPath) + ("}" + rest)));
    MemberRoundTrip(Message("", ""), key, m.videoId, last);
    MemberRoundTrip(SetField(Message("", ""), key, m.videoId), other, m.outputBucketPath, rest);
  }

  lemma RefusesTail(m: Message, rest: string)
    requires SkipSpace(rest) != ""
    requires var last := Quote("output_bucket_path") + (":" + (Quote(m.outputBucketPath) + ("}" + rest)));
             ReadMembers(Message("", ""), Quote("video_id") + (":" + (Quote(m.videoId) + ("," + last)))) == Some((m, rest))
    ensures Unmarshal(Framed(Quote("video_id"), Quote(m.videoId), Quote("output_bucket_path"), Quote(m.outputBucketPath),
                             "}" + rest)) == None
  {
    var last := Quote("output_bucket_path") + (":" + (Quote(m.outputBucketPath) + ("}" + rest)));
    var key := Quote("video_id");
    RefusesMembers(key + (":" + (Quote(m.videoId) + ("," + last))), m, rest);
  }

  lemma RefusesMembers(s: string, m: Message, rest: string)
    requires SkipSpace(rest) != "" && s != "" && s[0] == '\"'
    requires ReadMembers(Message("", ""), s) == Some((m, rest))
    ensures Unmarshal("{" + s) == None
  {
    ExpectFirst('{', s);
    assert s == ['\"'] + s[1..];
    ExpectFirst('\"', s[1..]);
  }

  /** What is written for the characters that are not written as they are. */
  lemma EscapesByExample()
    ensures EscapeChar('\"') == ['\\', '\"'] && EscapeChar('\\') == ['\\', '\\']
    ensures EscapeChar('\n') == ['\\', 'n'] && EscapeChar('\r') == ['\\', 'r'] && EscapeChar('\t') == ['\\', 't']
    ensures EscapeChar(8 as char) == ['\\', 'b'] && EscapeChar(12 as char) == ['\\', 'f']
    ensures EscapeChar('a') == ['a'] && EscapeChar('/') == ['/'] && EscapeChar(0xE9 as char) == [0xE9 as char]
  {
  }

  lemma DigitsInOrder(n: nat)
    requires n < 16
    ensures HexDigit(n) as int == if n < 10 then '0' as int + n else 'a' as int + (n - 10)
  {
  }

  lemma HexByExample()
    ensures NeedsHex(1 as char) && NeedsHex('<') && NeedsHex('>') && NeedsHex('&') && NeedsHex(0x2028 as char)
    ensures !NeedsHex(' ') && !NeedsHex('/') && !NeedsHex(0xE9 as char)
  {
  }

  /** What is read for escapes that are never written: a slash, upper-case digits, surrogate pairs, and
      halves of pairs. */
  lemma SlashIsRead(rest: string)
    ensures ReadChar(['\\', '/'] + rest) == Some(('/', rest))
    ensures ReadChar(['\\', 'x'] + rest) == None && ReadChar(['\n'] + rest) == None
  {
    assert (['\\', '/'] + rest)[2..] == rest;
  }

  lemma UpperCaseIsRead(rest: string)
    ensures ReadChar(['\\', 'u'] + (['0', '0', 'E', '9'] + rest)) == Some((0xE9 as char, rest))
  {
    var s := ['\\', 'u'] + (['0', '0', 'E', '9'] + rest);
    assert s[2..] == ['0', '0', 'E', '9'] + rest && s[6..] == rest;
  }

  lemma PairIsRead(rest: string)
    ensures ReadChar(['\\', 'u'] + (['d', '8', '3', 'd'] + (['\\', 'u'] + (['d', 'e', '0', '0'] + rest))))
         == Some((0x1F600 as char, rest))
  {
    var low := ['d', 'e', '0', '0'] + rest;
    var high := ['d', '8', '3', 'd'] + (['\\', 'u'] + low);
    var s := ['\\', 'u'] + high;
    assert ReadHex4(low) == Some(0xDE00) && ReadHex4(high) == Some(0xD83D);
    assert s[2..] == high && s[6..] == ['\\', 'u'] + low;
    assert s[6..][2..] == low && s[6..][6..] == rest;
  }

  lemma HalfIsReplaced(rest: string)
    ensures ReadChar(['\\', 'u'] + (['d', 'e', '0', '0'] + rest)) == Some((0xFFFD as char, rest))
  {
    var low := ['d', 'e', '0', '0'] + rest;
    var s := ['\\', 'u'] + low;
    assert ReadHex4(low) == Some(0xDE00);
    assert s[2..] == low && s[6..] == rest;
  }

  lemma FramedPlain(a: string, b: string, c: string, d: string)
    requires Plain(a) && Plain(b) && Plain(c) && Plain(d)
    ensures Framed(Quote(a), Quote(b), Quote(c), Quote(d), "}")
         == Framed("\"" + a + "\"", "\"" + b + "\"", "\"" + c + "\"", "\"" + d + "\"", "}")
  {
    PlainQuote(a);
    PlainQuote(b);
    PlainQuote(c);
    PlainQuote(d);
  }

  lemma KeysArePlain()
    ensures Plain("video_id") && Plain("output_bucket_path")
  {
  }

  /** A message of letters is written plainly. */
  lemma EncodeByExample(v: string, p: string, id: string, path: string)
    requires id == "video_id" && path == "output_bucket_path" && Plain(v) && Plain(p)
    ensures Encode(Message(v, p)) == Framed("\"" + id + "\"", "\"" + v + "\"", "\"" + path + "\"", "\"" + p + "\"", "}")
  {
    KeysArePlain();
    EncodeUses(Message(v, p), id, path);
    FramedPlain(id, v, path, p);
  }

  lemma EncodeUses(m: Message, id: string, path: string)
    requires id == "video_id" && path == "output_bucket_path"
    ensures Encode(m) == Framed(Quote(id), Quote(m.videoId), Quote(path), Quote(m.outputBucketPath), "}")
  {
    EncodeIsFramed(m);
  }

  predicate Plain(s: string) { forall c | c in s :: 'a' <= c <= 'z' || c == '_' }

  lemma {:induction false} PlainQuote(s: string)
    requires Plain(s)
    ensures Escape(s) == s && Quote(s) == "\"" + s + "\""
  {
    if s != "" {
      assert s[0] in s && EscapeChar(s[0]) == [s[0]];
      assert forall c | c in s[1..] :: c in s;
      PlainQuote(s[1..]);
      assert [s[0]] + s[1..] == s;
    }
  }

  // ---------------------------------------------------------------- handleCreateJob

  /** unicode.IsSpace */
  predicate IsSpace(c: char) {
    var n := c as int;
    || 9 <= n <= 13 || n == 0x20 || n == 0x85 || n == 0xA0 || n == 0x1680 || 0x2000 <= n <= 0x200A
    || n == 0x2028 || n == 0x2029 || n == 0x202F || n == 0x205F || n == 0x3000
  }

  function TrimLeft(s: string): string { if s != "" && IsSpace(s[0]) then TrimLeft(s[1..]) else s }

  function TrimRight(s: string): string {
    if s != "" && IsSpace(s[|s| - 1]) then TrimRight(s[..|s| - 1]) else s
  }

  /** strings.TrimSpace */
  function TrimSpace(s: string): string { TrimRight(TrimLeft(s)) }

  lemma {:induction false} TrimLeftExactly(s: string) returns (front: string)
    ensures s == front + TrimLeft(s) && forall c | c in front :: IsSpace(c)
    ensures TrimLeft(s) != "" ==> !IsSpace(TrimLeft(s)[0])
  {
    front := "";
    if s != "" && IsSpace(s[0]) {
      front := TrimLeftExactly(s[1..]);
      front := [s[0]] + front;
    }
  }

  lemma {:induction false} TrimRightExactly(s: string) returns (back: string)
    ensures s == TrimRight(s) + back && forall c | c in back :: IsSpace(c)
    ensures TrimRight(s) != "" ==> !IsSpace(TrimRight(s)[|TrimRight(s)| - 1])
  {
    back := "";
    if s != "" && IsSpace(s[|s| - 1]) {
      back := TrimRightExactly(s[..|s| - 1]);
      back := back + [s[|s| - 1]];
    }
  }

  /** Only white space is cut off, at both ends, and none is left there. */
  lemma TrimSpaceExactly(s: string) returns (front: string, back: string)
    ensures s == front + TrimSpace(s) + back
    ensures (forall c | c in front :: IsSpace(c)) && forall c | c in back :: IsSpace(c)
    ensures var t := TrimSpace(s); t != "" ==> !IsSpace(t[0]) && !IsSpace(t[|t| - 1])
  {
    front := TrimLeftExactly(s);
    back := TrimRightExactly(TrimLeft(s));
    var t := TrimSpace(s);
    if t != "" { assert t[0] == TrimLeft(s)[0]; }
  }

  lemma SpacesByExample()
    ensures IsSpace(' ') && IsSpace('\t') && IsSpace('\n') && IsSpace('\r') && IsSpace(11 as char) && IsSpace(12 as char)
    ensures IsSpace(0x85 as char) && IsSpace(0xA0 as char) && IsSpace(0x2003 as char) && IsSpace(0x3000 as char)
    ensures !IsSpace('a') && !IsSpace('0') && !IsSpace('-') && !IsSpace('/')
    ensures !IsSpace(0 as char) && !IsSpace(0x200B as char)
  {
  }

  function Utf8Size(c: char): nat {
    var n := c as int;
    if n < 0x80 then 1 else if n < 0x800 then 2 else if n < 0x10000 then 3 else 4
  }

  /** Go's len of the text. */
  function ByteLength(s: string): nat { if s == "" then 0 else Utf8Size(s[0]) + ByteLength(s[1..]) }

  /** Between one and four bytes a character, and one exactly for ASCII. */
  lemma {:induction false} ByteLengthBounds(s: string)
    ensures |s| <= ByteLength(s) <= 4 * |s|
    ensures ByteLength(s) == |s| <==> forall c | c in s :: c as int < 0x80
  {
    if s != "" {
      ByteLengthBounds(s[1..]);
      assert s[0] in s && forall c | c in s :: c == s[0] || c in s[1..];
      assert forall c | c in s[1..] :: c in s;
    }
  }

  lemma SizesByExample()
    ensures Utf8Size('a') == 1 && Utf8Size(0x7F as char) == 1 && Utf8Size(0x80 as char) == 2 && Utf8Size(0x7FF as char) == 2
    ensures Utf8Size(0x800 as char) == 3 && Utf8Size(0xFFFD as char) == 3 && Utf8Size(0x10000 as char) == 4
  {
  }

  const MAX_PREFIX_LEN: nat := 1024

  datatype Lookup = Found | Missing | Broken

  datatype Response = Accepted(videoId: string, outputBucketPath: string)
                    | BadRequest(text: string) | NotFound | InternalError | BadGateway

  /** The message that handleCreateJob makes of a request. */
  function Trimmed(request: Message): Message {
    Message(TrimSpace(request.videoId), TrimSpace(request.outputBucketPath))
  }

  /** The checks before the video is looked up; `validUuid` is the UUID library's verdict on a text. */
  predicate WellFormed(m: Message, validUuid: string -> bool) {
    && m.videoId != "" && m.outputBucketPath != "" && validUuid(m.videoId)
    && ByteLength(m.outputBucketPath) <= MAX_PREFIX_LEN && (0 as char) !in m.outputBucketPath
  }

  predicate Publishable(m: Message, validUuid: string -> bool, find: string -> Lookup) {
    WellFormed(m, validUuid) && find(m.videoId).Found?
  }

  /** What is wrong with the message, in the order of the handler's checks. */
  method Check(message: Message, validUuid: string -> bool) returns (problem: Option<string>)
    ensures problem.None? <==> WellFormed(message, validUuid)
  {
    if message.videoId == "" || message.outputBucketPath == "" {
      return Some("video_id and output_bucket_path are required");
    }
    if !validUuid(message.videoId) { return Some("video_id must be a UUID"); }
    if ByteLength(message.outputBucketPath) > MAX_PREFIX_LEN { return Some("output_bucket_path is too long"); }
    if (0 as char) in message.outputBucketPath { return Some("output_bucket_path must not contain null bytes"); }
    return None;
  }

  /** The body that PublishJSON sends. */
  method Marshal(message: Message) returns (body: string)
    ensures body == Encode(message)
    ensures message.videoId != "" && message.outputBucketPath != "" ==> Parse(body) == Ok(message)
  {
    ParseOfEncode(message);
    body := Encode(message);
  }

  /** From the checks on; `find` and `publishing` are what the video repository and the publisher
      answer. */
  method Enqueue(message: Message, validUuid: string -> bool, find: string -> Lookup, publishing: Outcome)
    returns (response: Response, published: Option<string>)
    ensures published.Some? <==> Publishable(message, validUuid, find)
    ensures published.Some? ==> Parse(published.value) == Ok(message)
    ensures response.Accepted? ==> Message(response.videoId, response.outputBucketPath) == message
    ensures response.Accepted? <==> published.Some? && publishing.Done?
    ensures response.BadGateway? <==> published.Some? && publishing.Fault?
    ensures response.BadRequest? <==> !WellFormed(message, validUuid)
    ensures response.NotFound? <==> WellFormed(message, validUuid) && find(message.videoId).Missing?
    ensures response.InternalError? <==> WellFormed(message, validUuid) && find(message.videoId).Broken?
  {
    published := None;
    var problem := Check(message, validUuid);
    if problem.Some? { return BadRequest(problem.value), None; }
    match find(message.videoId) {
      case Missing => return NotFound, None;
      case Broken => return InternalError, None;
      case Found =>
    }
    var body := Marshal(message);
    published := Some(body);
    response := if publishing.Fault? then BadGateway else Accepted(message.videoId, message.outputBucketPath);
  }

  /** Exactly the requests whose trimmed fields pass the checks, and whose video exists, are published;
      what is published is parsed to the trimmed request, which an accepting answer repeats. */
  method HandleCreateJob(request: Message, validUuid: string -> bool, find: string -> Lookup, publishing: Outcome)
    returns (response: Response, published: Option<string>)
    ensures published.Some? <==> Publishable(Trimmed(request), validUuid, find)
    ensures published.Some? ==> Parse(published.value) == Ok(Trimmed(request))
    ensures response.Accepted? ==> Message(response.videoId, response.outputBucketPath) == Trimmed(request)
    ensures response.Accepted? <==> published.Some? && publishing.Done?
    ensures response.BadRequest? <==> !WellFormed(Trimmed(request), validUuid)
    ensures var m := Message(TrimSpace(request.videoId), TrimSpace(request.outputBucketPath));
            published.Some? <==>
              && m.videoId != "" && m.outputBucketPath != "" && validUuid(m.videoId)
              && ByteLength(m.outputBucketPath) <= 1024 && (0 as char) !in m.outputBucketPath
              && find(m.videoId).Found?
  {
    var videoId := TrimSpace(request.videoId);
    var outputBucketPath := TrimSpace(request.outputBucketPath);
    response, published := Enqueue(Message(videoId, outputBucketPath), validUuid, find, publishing);
  }
}
