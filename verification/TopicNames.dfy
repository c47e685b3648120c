/** ROS topic names as Kafka topic names and back: the sink's map and the source's inverse.
 */
module TopicNames {
  import opened Options
  import opened Sequences

  /** How the sink names Kafka topics: a fixed name, or a prefix before the ROS name. */
  datatype SinkNames = SinkNames(fixed: Option<string>, prefix: string)

  function Dotted(topic: string): string {
    Replaced(WithoutSlash(topic), '/', '.')
  }

  function MapKafkaTopic(c: SinkNames, topic: string): string {
    if c.fixed.Some? then c.fixed.value
    else
      var name := Dotted(topic);
      if c.prefix == [] then name
      else if c.prefix[|c.prefix| - 1] == '.' || name == [] then c.prefix + name
      else c.prefix + "." + name
  }

  /** The sink's names: the fixed one, or the dotted ROS name behind the prefix and one dot. */
  lemma MapIs(c: SinkNames, topic: string)
    requires topic != [] && topic[0] != '/'
    ensures c.fixed.Some? ==> MapKafkaTopic(c, "/" + topic) == c.fixed.value
    ensures c.fixed.None? ==>
              var name := Replaced(topic, '/', '.');
              && MapKafkaTopic(c, "/" + topic) == MapKafkaTopic(c, topic)
              && MapKafkaTopic(c.(prefix := ""), "/" + topic) == name
              && MapKafkaTopic(c.(prefix := c.prefix + "."), "/" + topic) == c.prefix + "." + name
              && (c.prefix != [] && c.prefix[|c.prefix| - 1] != '.' ==>
                    MapKafkaTopic(c, "/" + topic) == c.prefix + "." + name)
  {
    assert ("/" + topic)[1..] == topic;
    ReplacedAt(topic, '/', '.', 0);
  }

  // ---------------------------------------------------------------- the source's side

  const ROS2_DOT := "ros2."

  /** What is left of a Kafka name once "ros2." is cut off its front, with slashes for dots. */
  function Suffix(kafka: string): string {
    Replaced(if ROS2_DOT <= kafka then kafka[5..] else kafka, '.', '/')
  }

  function DropLastSlash(s: string): string {
    if s != [] && s[|s| - 1] == '/' then s[..|s| - 1] else s
  }

  function NormPrefix(prefix: string): string {
    var p := DropLastSlash(prefix);
    if p != [] && p[0] != '/' then "/" + p else p
  }

  /** Each run of slashes becomes one. */
  function Collapse(s: string): (r: string)
    ensures |r| <= |s| && (s != [] ==> r != [] && r[0] == s[0])
  {
    if |s| < 2 then s
    else if s[0] == '/' && s[1] == '/' then Collapse(s[1..])
    else [s[0]] + Collapse(s[1..])
  }

  function DeriveRosTopic(sourcePrefix: string, kafka: string): string {
    var suffix, p := Suffix(kafka), NormPrefix(sourcePrefix);
    if suffix == [] then (if p == [] then "/" else p)
    else
      var topic := Collapse(if p == [] then "/" + suffix else p + "/" + suffix);
      if |topic| > 1 then DropLastSlash(topic) else topic
  }

  // ---------------------------------------------------------------- round trip

  predicate DoubleAt(s: string, i: int) {
    0 <= i < |s| - 1 && s[i] == '/' && s[i + 1] == '/'
  }

  predicate HasDouble(s: string) {
    exists i :: 0 <= i < |s| - 1 && DoubleAt(s, i)
  }

  /** A leading slash and non-empty segments without dots. */
  predicate WellFormed(t: string) {
    |t| > 1 && t[0] == '/' && t[|t| - 1] != '/' && !HasDouble(t) && '.' !in t
  }

  /** What the source puts before a name: its prefix, runs of slashes collapsed, without a
      trailing slash. */
  function CleanPrefix(sourcePrefix: string): string {
    DropLastSlash(Collapse(NormPrefix(sourcePrefix)))
  }

  /** With the default sink prefix a well-formed name comes back behind the source's prefix. */
  lemma RoundTrip(sinkPrefix: string, sourcePrefix: string, t: string)
    requires WellFormed(t) && sinkPrefix in ["ros2", "ros2."]
    ensures DeriveRosTopic(sourcePrefix, MapKafkaTopic(SinkNames(None, sinkPrefix), t)) ==
            CleanPrefix(sourcePrefix) + t
  {
    MappedSuffix(sinkPrefix, t);
    DerivedFrom(sourcePrefix, MapKafkaTopic(SinkNames(None, sinkPrefix), t), t);
  }

  lemma MappedSuffix(sinkPrefix: string, t: string)
    requires WellFormed(t) && sinkPrefix in ["ros2", "ros2."]
    ensures Suffix(MapKafkaTopic(SinkNames(None, sinkPrefix), t)) == t[1..]
  {
    hide WellFormed, Replaced;
    var kafka := MapKafkaTopic(SinkNames(None, sinkPrefix), t);
    NamesTail(t);
    ReplacedKeepsLength(t[1..], '/', '.');
    assert kafka == ROS2_DOT + Dotted(t);
    assert kafka[5..] == Dotted(t);
    ReplacedBack(t[1..], '/', '.');
  }

  lemma DerivedFrom(sourcePrefix: string, kafka: string, t: string)
    requires WellFormed(t) && Suffix(kafka) == t[1..]
    ensures DeriveRosTopic(sourcePrefix, kafka) == CleanPrefix(sourcePrefix) + t
  {
    hide Suffix, NormPrefix, Collapse, WellFormed;
    var p := NormPrefix(sourcePrefix);
    NamesTail(t);
    assert "/" + t[1..] == t && [] + t == t;
    assert p + "/" + t[1..] == p + t;
    CollapsePrefix(p, t);
    NoTrailingSlash(DropLastSlash(Collapse(p)), t);
  }

  lemma NamesTail(t: string)
    requires WellFormed(t)
    ensures |t| > 1 && t[0] == '/' && t[1..] != [] && '.' !in t[1..] && !HasDouble(t)
  {
  }

  lemma {:induction false} ReplacedKeepsLength(s: string, a: char, b: char)
    ensures |Replaced(s, a, b)| == |s|
  {
    if s != [] { ReplacedKeepsLength(s[1..], a, b); }
  }

  lemma NoTrailingSlash(p: string, t: string)
    requires WellFormed(t)
    ensures DropLastSlash(p + t) == p + t && |p + t| > 1
  {
  }

  /** Collapsing a prefix before a well-formed name leaves the name as it is. */
  lemma {:induction false} CollapsePrefix(p: string, t: string)
    requires WellFormed(t)
    ensures Collapse(p + t) == DropLastSlash(Collapse(p)) + t
    decreases |p|
  {
    hide Collapse, WellFormed;
    NamesTail(t);
    if p == [] {
      CollapseFixed(t);
      assert p + t == t && [] + t == t;
      CollapseNothing();
    } else {
      var x, q := p[0], p[1..];
      assert p == [x] + q && p + t == [x] + (q + t);
      CollapsePrefix(q, t);
      CollapseStep(x, q + t);
      if q == [] {
        CollapseNothing();
        CollapseOne(x);
        assert q + t == t && p == [x];
      } else {
        CollapseStep(x, q);
        var r := Collapse(q);
        assert DropLastSlash([x] + r) == [x] + DropLastSlash(r);
        Assoc([x], DropLastSlash(r), t);
      }
    }
  }

  lemma CollapseStep(x: char, s: string)
    requires s != []
    ensures Collapse([x] + s) == if x == '/' && s[0] == '/' then Collapse(s) else [x] + Collapse(s)
  {
    assert ([x] + s)[1..] == s;
  }

  lemma CollapseNothing()
    ensures Collapse([]) == []
  {
  }

  lemma CollapseOne(x: char)
    ensures Collapse([x]) == [x]
  {
  }

  lemma {:induction false} CollapseFixed(s: string)
    requires !HasDouble(s)
    ensures Collapse(s) == s
    decreases |s|
  {
    if |s| >= 2 {
      forall i | 0 <= i < |s[1..]| - 1 ensures !DoubleAt(s[1..], i) {
        assert !DoubleAt(s, i + 1);
      }
      CollapseFixed(s[1..]);
      assert !DoubleAt(s, 0);
    }
  }

  /** A well-formed prefix is used as it is, with its leading slash left out or a trailing one added
      as well; an empty one and a bare slash are none. */
  lemma CleanPrefixIs(p: string)
    requires WellFormed(p)
    ensures CleanPrefix(p) == CleanPrefix(p[1..]) == CleanPrefix(p + "/") == p
    ensures CleanPrefix("") == CleanPrefix("/") == ""
  {
    CollapseFixed(p);
    assert p[1..] != [] && p[1..][|p| - 2] == p[|p| - 1] && !DoubleAt(p, 0);
    assert "/" + p[1..] == p && (p + "/")[..|p|] == p;
    assert NormPrefix(p) == NormPrefix(p[1..]) == NormPrefix(p + "/") == p;
    assert NormPrefix("") == NormPrefix("/") == "";
  }

  /** With nothing behind "ros2." the source's own prefix is the name, or the root. */
  lemma DerivedFromNothing(p: string)
    ensures DeriveRosTopic("", "ros2.") == "/"
    ensures p != [] && p[0] == '/' && p[|p| - 1] != '/' ==> DeriveRosTopic(p, "ros2.") == p
    ensures p != [] && p[0] != '/' && p[|p| - 1] != '/' ==> DeriveRosTopic(p, "ros2.") == "/" + p
  {
    assert "ros2."[5..] == "" && Suffix("ros2.") == "";
  }

  // ---------------------------------------------------------------- which names collide

  /** Two names share a Kafka topic exactly when the mapping is fixed, or they are the same
      once a leading slash is dropped and slashes read as dots. */
  lemma CollideIff(c: SinkNames, t: string, u: string)
    ensures MapKafkaTopic(c, t) == MapKafkaTopic(c, u) <==> c.fixed.Some? || Dotted(t) == Dotted(u)
  {
    if c.fixed.None? && c.prefix != [] {
      var dotted := c.prefix[|c.prefix| - 1] == '.';
      Tail(c, t);
      Tail(c, u);
    }
  }

  lemma Tail(c: SinkNames, t: string)
    requires c.fixed.None? && c.prefix != []
    ensures var k := MapKafkaTopic(c, t);
            var dot := c.prefix[|c.prefix| - 1] == '.';
            && |k| >= |c.prefix|
            && (dot || k == c.prefix ==> k[|c.prefix|..] == Dotted(t))
            && (!dot && k != c.prefix ==> k[|c.prefix|..] == "." + Dotted(t) && Dotted(t) != [])
            && ("." + Dotted(t))[1..] == Dotted(t)
  {
  }

  /** The sink's map is injective on well-formed names. */
  lemma Injective(c: SinkNames, t: string, u: string)
    requires c.fixed.None? && WellFormed(t) && WellFormed(u)
    requires MapKafkaTopic(c, t) == MapKafkaTopic(c, u)
    ensures t == u
  {
    hide MapKafkaTopic;
    CollideIff(c, t, u);
    ReplacedBack(t[1..], '/', '.');
    ReplacedBack(u[1..], '/', '.');
    assert t == "/" + t[1..] && u == "/" + u[1..];
  }

  /** Not on every name: a dot inside a segment reads like a slash. */
  lemma DotsCollide(c: SinkNames)
    ensures MapKafkaTopic(c, "/a.b") == MapKafkaTopic(c, "/a/b")
  {
    assert "/a.b"[1..] == "a.b" && "/a/b"[1..] == "a/b";
    Dots();
    CollideIff(c, "/a.b", "/a/b");
  }

  lemma Dots()
    ensures Replaced("a.b", '/', '.') == "a.b" && Replaced("a/b", '/', '.') == "a.b"
  {
    assert "a.b"[1..] == ".b" && "a/b"[1..] == "/b" && ".b"[1..] == "b" && "/b"[1..] == "b";
    assert Replaced("b", '/', '.') == "b";
    assert Replaced(".b", '/', '.') == ".b" && Replaced("/b", '/', '.') == ".b";
  }

  // ---------------------------------------------------------------- shape of derived names

  predicate RosShape(t: string) {
    t != [] && t[0] == '/' && !HasDouble(t) && (|t| > 1 ==> t[|t| - 1] != '/')
  }

  lemma {:induction false} CollapsedHasNoDouble(s: string)
    ensures !HasDouble(Collapse(s))
    decreases |s|
  {
    if |s| >= 2 {
      CollapsedHasNoDouble(s[1..]);
      if !DoubleAt(s, 0) {
        var r, rest := Collapse(s), Collapse(s[1..]);
        forall i | 0 <= i < |r| - 1 ensures !DoubleAt(r, i) {
          if i > 0 { assert !DoubleAt(rest, i - 1); }
        }
      }
    }
  }

  /** Whatever the Kafka name, a non-empty suffix derives a well-shaped ROS name. */
  lemma DerivedShape(sourcePrefix: string, kafka: string)
    requires Suffix(kafka) != []
    ensures RosShape(DeriveRosTopic(sourcePrefix, kafka))
  {
    hide Suffix, Collapse;
    var suffix, p := Suffix(kafka), NormPrefix(sourcePrefix);
    var raw := if p == [] then "/" + suffix else p + "/" + suffix;
    var topic := Collapse(raw);
    CollapsedHasNoDouble(raw);
    DroppedShape(topic);
  }

  lemma DroppedShape(topic: string)
    requires topic != [] && topic[0] == '/' && !HasDouble(topic)
    ensures RosShape(if |topic| > 1 then DropLastSlash(topic) else topic)
  {
    var n := |topic|;
    if n > 1 && topic[n - 1] == '/' {
      assert !DoubleAt(topic, n - 2);
      var r := topic[..n - 1];
      forall i | 0 <= i < |r| - 1 ensures !DoubleAt(r, i) { assert !DoubleAt(topic, i); }
    }
  }

  /** With nothing left behind "ros2." the bare prefix is returned, uncollapsed: it is
      well-shaped exactly when the configured prefix has no double slash, "//" itself aside. */
  lemma EmptySuffixShapeIff(sourcePrefix: string, kafka: string)
    requires Suffix(kafka) == []
    ensures RosShape(DeriveRosTopic(sourcePrefix, kafka)) <==> !HasDouble(sourcePrefix) || sourcePrefix == "//"
  {
    hide Suffix;
    var s := sourcePrefix;
    var q, p := DropLastSlash(s), NormPrefix(s);
    if HasDouble(s) {
      var i :| 0 <= i < |s| - 1 && DoubleAt(s, i);
      if i < |s| - 2 {
        assert DoubleAt(q, i);
        assert DoubleAt(p, if q[0] != '/' then i + 1 else i);
      } else {
        assert q == s[..|s| - 1] && q[|q| - 1] == '/';
        assert p[|p| - 1] == '/';
      }
    } else {
      forall i | 0 <= i < |p| - 1 ensures !DoubleAt(p, i) {
        var k := if q != [] && q[0] != '/' then i - 1 else i;
        if k >= 0 { assert !DoubleAt(s, k); }
      }
      if q != s && |q| > 0 { assert !DoubleAt(s, |s| - 2); }
    }
  }

  lemma EmptySuffixBreaksShape()
    ensures Suffix("ros2.") == [] && !RosShape(DeriveRosTopic("a//b", "ros2."))
  {
    assert "ros2."[5..] == "";
    assert DoubleAt("a//b", 1);
    EmptySuffixShapeIff("a//b", "ros2.");
    assert "a//b" != "//";
  }

  // ---------------------------------------------------------------- JSON string bodies

  function HexDigit(n: nat): char
    requires n < 16
  {
    "0123456789ABCDEF"[n]
  }

  function EscapeChar(c: char): string {
    if c == '\\' then "\\\\"
    else if c == '"' then "\\\""
    else if c == '\n' then "\\n"
    else if c == '\r' then "\\r"
    else if c == '\t' then "\\t"
    else if c == '\U{0008}' then "\\b"
    else if c == '\U{000C}' then "\\f"
    else if c < ' ' then "\\u00" + [HexDigit(c as int / 16), HexDigit(c as int % 16)]
    else [c]
  }

  /** Characters with a short escape have it, other control characters a hexadecimal one, and no
      other character is escaped. */
  lemma EscapesAre(c: char)
    ensures EscapeChar('\\') == "\\\\" && EscapeChar('"') == "\\\""
    ensures EscapeChar('\n') == "\\n" && EscapeChar('\r') == "\\r" && EscapeChar('\t') == "\\t"
    ensures EscapeChar('\U{0008}') == "\\b" && EscapeChar('\U{000C}') == "\\f"
    ensures EscapeChar('\U{001F}') == "\\u001F"
    ensures c >= ' ' && c != '\\' && c != '"' ==> EscapeChar(c) == [c]
  {
    assert HexDigit(1) == '1' && HexDigit(15) == 'F';
  }

  function Escape(s: string): string {
    if s == [] then [] else EscapeChar(s[0]) + Escape(s[1..])
  }

  method JsonEscape(input: string) returns (escaped: string)
    ensures escaped == Escape(input)
  {
    escaped := [];
    var i := 0;
    while i < |input|
      invariant 0 <= i <= |input| && escaped + Escape(input[i..]) == Escape(input)
    {
      assert input[i..][1..] == input[i + 1..];
      assert escaped + (EscapeChar(input[i]) + Escape(input[i + 1..])) ==
             (escaped + EscapeChar(input[i])) + Escape(input[i + 1..]);
      escaped := escaped + EscapeChar(input[i]);
      i := i + 1;
    }
  }

  function HexValue(c: char): Option<nat> {
    if '0' <= c <= '9' then Some(c as int - '0' as int)
    else if 'A' <= c <= 'F' then Some(c as int - 'A' as int + 10)
    else if 'a' <= c <= 'f' then Some(c as int - 'a' as int + 10)
    else None
  }

  /** The character behind a backslash and the rest, by section 7 of RFC 8259. A surrogate is
      refused: no control character needs one. */
  function UnescapeChar(t: string): Option<(char, string)> {
    if t == [] then None
    else if t[0] in "\"\\/" then Some((t[0], t[1..]))
    else if t[0] == 'b' then Some(('\U{0008}', t[1..]))
    else if t[0] == 'f' then Some(('\U{000C}', t[1..]))
    else if t[0] == 'n' then Some(('\n', t[1..]))
    else if t[0] == 'r' then Some(('\r', t[1..]))
    else if t[0] == 't' then Some(('\t', t[1..]))
    else if t[0] == 'u' && |t| >= 5 then
      var (a, b, c, d) := (HexValue(t[1]), HexValue(t[2]), HexValue(t[3]), HexValue(t[4]));
      if a.Some? && b.Some? && c.Some? && d.Some? then
        var code := ((a.value * 16 + b.value) * 16 + c.value) * 16 + d.value;
        if code < 0xD800 then Some((code as char, t[5..]))
        else if 0xE000 <= code < 0x1_0000 then Some((code as char, t[5..]))
        else None
      else None
    else None
  }

  /** The body of a JSON string read back; None where the text is not one. */
  function Unescape(t: string): Option<string>
    decreases |t|
  {
    if t == [] then Some([])
    else if t[0] == '\\' then
      var r := UnescapeChar(t[1..]);
      if r.None? || |r.value.1| >= |t| then None
      else
        var rest := Unescape(r.value.1);
        if rest.Some? then Some([r.value.0] + rest.value) else None
    else if t[0] == '"' || t[0] < ' ' then None
    else
      var rest := Unescape(t[1..]);
      if rest.Some? then Some([t[0]] + rest.value) else None
  }

  /** Escaping any text gives the body of a JSON string that reads back as that text. */
  lemma {:induction false} EscapeRoundTrip(s: string)
    ensures Unescape(Escape(s)) == Some(s)
  {
    hide EscapeChar;
    if s != [] {
      EscapeRoundTrip(s[1..]);
      EscapedChar(s[0], Escape(s[1..]));
      assert [s[0]] + s[1..] == s;
    }
  }

  lemma EscapedChar(c: char, rest: string)
    requires Unescape(rest).Some?
    ensures Unescape(EscapeChar(c) + rest) == Some([c] + Unescape(rest).value)
  {
    hide UnescapeChar;
    var t := EscapeChar(c) + rest;
    if |EscapeChar(c)| == 1 {
      assert t[1..] == rest;
    } else {
      EscapedTail(c, rest);
      assert t[1..] == EscapeChar(c)[1..] + rest;
    }
  }

  lemma EscapedTail(c: char, rest: string)
    requires |EscapeChar(c)| != 1
    ensures EscapeChar(c)[0] == '\\' && UnescapeChar(EscapeChar(c)[1..] + rest) == Some((c, rest))
  {
    var tail := EscapeChar(c)[1..];
    if |EscapeChar(c)| == 2 {
      assert tail + rest == [EscapeChar(c)[1]] + rest;
      assert (tail + rest)[1..] == rest;
    } else {
      assert tail == "u00" + [HexDigit(c as int / 16), HexDigit(c as int % 16)];
      ControlChar(c, rest);
    }
  }

  lemma ControlChar(c: char, rest: string)
    requires c < ' '
    ensures var e := "u00" + [HexDigit(c as int / 16), HexDigit(c as int % 16)] + rest;
            UnescapeChar(e) == Some((c, rest))
  {
    var hi, lo := c as int / 16, c as int % 16;
    var e := "u00" + [HexDigit(hi), HexDigit(lo)] + rest;
    HexBack(hi);
    HexBack(lo);
    assert e[0] == 'u' && e[1] == '0' && e[2] == '0' && e[3] == HexDigit(hi) && e[4] == HexDigit(lo);
    assert e[5..] == rest;
  }

  lemma HexBack(n: nat)
    requires n < 16
    ensures HexValue(HexDigit(n)) == Some(n)
  {
  }

  /** Escaping is injective. */
  lemma EscapeInjective(s: string, t: string)
    requires Escape(s) == Escape(t)
    ensures s == t
  {
    EscapeRoundTrip(s);
    EscapeRoundTrip(t);
  }
}
