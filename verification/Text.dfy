/** The string operations the IRC parser is written with: strip, split, partition and decimal numbers. */
module Text {

  // str.isspace for one character.
  predicate IsSpace(c: char) {
    var n := c as int;
    || n == 0x20 || 0x09 <= n <= 0x0D || 0x1C <= n <= 0x1F || n == 0x85 || n == 0xA0 || n == 0x1680
    || 0x2000 <= n <= 0x200A || n == 0x2028 || n == 0x2029 || n == 0x202F || n == 0x205F || n == 0x3000
  }

  /** In plain text these are blanks, line ends, tabs and the four separators of ASCII. */
  lemma AsciiSpaces(c: char)
    requires c as int < 128
    ensures IsSpace(c) <==>
      c == ' ' || c == '\t' || c == '\n' || c == '\r' || c as int == 11 || c as int == 12 || 28 <= c as int <= 31
  {
  }

  function LStrip(s: string): string {
    if s != "" && IsSpace(s[0]) then LStrip(s[1..]) else s
  }

  function RStrip(s: string): (r: string)
    ensures r <= s
    ensures r != "" ==> !IsSpace(r[|r| - 1])
    ensures forall i :: |r| <= i < |s| ==> IsSpace(s[i])
  {
    if s != "" && IsSpace(s[|s| - 1]) then RStrip(s[..|s| - 1]) else s
  }

  function Strip(s: string): string {
    RStrip(LStrip(s))
  }

  // The first place where `sep` occurs, or |s|.
  function Find(s: string, sep: string): (i: nat)
    requires sep != ""
    ensures i <= |s|
    ensures i < |s| ==> sep <= s[i..]
  {
    if s == "" then 0
    else if sep <= s then 0
    else 1 + Find(s[1..], sep)
  }

  predicate Contains(s: string, sep: string)
    requires sep != ""
  {
    Find(s, sep) < |s|
  }

  // str.partition without the separator itself.
  function Partition(s: string, sep: string): (string, string)
    requires sep != ""
  {
    var i := Find(s, sep);
    if i < |s| then (s[..i], s[i + |sep|..]) else (s, "")
  }

  // The pieces of a text with one more character in front.
  function Prepend(c: char, sep: char, parts: seq<string>): (r: seq<string>)
    requires parts != []
    ensures r != []
  {
    if c == sep then [""] + parts else [[c] + parts[0]] + parts[1..]
  }

  // str.split on one character.
  function Split(s: string, sep: char): (parts: seq<string>)
    ensures parts != []
  {
    if s == "" then [""] else Prepend(s[0], sep, Split(s[1..], sep))
  }

  predicate IsDigit(c: char) {
    '0' <= c <= '9'
  }

  predicate AreDigits(s: string) {
    s != "" && forall i :: 0 <= i < |s| ==> IsDigit(s[i])
  }

  function DigitOf(d: nat): char
    requires d < 10
  {
    '0' + d as char
  }

  function ParseNat(s: string): nat
    requires AreDigits(s)
  {
    var low := s[|s| - 1] as int - '0' as int;
    if |s| == 1 then low else 10 * ParseNat(s[..|s| - 1]) + low
  }

  function PrintNat(n: nat): string {
    if n < 10 then [DigitOf(n)] else PrintNat(n / 10) + [DigitOf(n % 10)]
  }

  function PrintInt(n: int): string {
    if n < 0 then "-" + PrintNat(-n) else PrintNat(n)
  }

  // ----- lemmas ------------------------------------------------------------------------

  /** Decimal printing is undone by parsing. */
  lemma {:induction false} ParsePrint(n: nat)
    ensures AreDigits(PrintNat(n)) && ParseNat(PrintNat(n)) == n
  {
    if n >= 10 {
      ParsePrint(n / 10);
      var s := PrintNat(n);
      assert s[..|s| - 1] == PrintNat(n / 10);
    }
  }

  /** Stripping on the left takes off whitespace, and all of it. */
  lemma {:induction false} LStripIs(s: string) returns (off: string)
    ensures s == off + LStrip(s) && forall c :: c in off ==> IsSpace(c)
    ensures LStrip(s) != "" ==> !IsSpace(LStrip(s)[0])
  {
    off := "";
    if s != "" && IsSpace(s[0]) {
      off := LStripIs(s[1..]);
      off := [s[0]] + off;
    }
  }

  /** What `Find` finds is the first occurrence, and it finds one if there is any. */
  lemma {:induction false} FindIsFirst(s: string, sep: string, k: nat)
    requires sep != "" && k < |s| && sep <= s[k..]
    ensures Find(s, sep) <= k
  {
    if k > 0 && !(sep <= s) {
      assert s[1..][k - 1..] == s[k..];
      FindIsFirst(s[1..], sep, k - 1);
    }
  }

  lemma DropFirst(a: string, sep: string, b: string)
    requires a != ""
    ensures (a + sep + b)[0] == a[0] && (a + sep + b)[1..] == a[1..] + sep + b
  {
  }

  lemma PrefixHead(s: string, sep: string)
    requires sep != "" && s != ""
    ensures sep <= s ==> s[0] == sep[0]
  {
  }

  /** A separator whose first character does not occur before it is found there. */
  lemma {:induction false} FindAt(a: string, sep: string, b: string)
    requires sep != "" && sep[0] !in a
    ensures Find(a + sep + b, sep) == |a|
  {
    var s := a + sep + b;
    if a == "" {
      assert s == sep + b;
      assert sep <= s;
    } else {
      DropFirst(a, sep, b);
      PrefixHead(s, sep);
      FindAt(a[1..], sep, b);
    }
  }

  lemma PartitionAt(a: string, sep: string, b: string)
    requires sep != "" && sep[0] !in a
    ensures Partition(a + sep + b, sep) == (a, b) && Contains(a + sep + b, sep)
  {
    FindAt(a, sep, b);
    var s := a + sep + b;
    assert s[..|a|] == a && s[|a| + |sep|..] == b;
  }

  // A text that neither starts nor ends with a space is kept; only what follows it is stripped.
  lemma {:induction false} RStripAfter(head: string, tail: string)
    requires head != "" && !IsSpace(head[|head| - 1])
    ensures RStrip(head + tail) == head + RStrip(tail)
  {
    var s := head + tail;
    if tail == "" {
      assert s == head;
    } else if IsSpace(tail[|tail| - 1]) {
      RStripAfter(head, tail[..|tail| - 1]);
      assert s[..|s| - 1] == head + tail[..|tail| - 1];
    }
  }

  lemma PrependJoins(c: char, sep: char, front: seq<string>, back: seq<string>)
    requires front != []
    ensures Prepend(c, sep, front + back) == Prepend(c, sep, front) + back
  {
    assert (front + back)[1..] == front[1..] + back;
  }

  lemma {:induction false} SplitJoins(a: string, sep: char, b: string)
    ensures Split(a + [sep] + b, sep) == Split(a, sep) + Split(b, sep)
  {
    var s := a + [sep] + b;
    if a == "" {
      assert s[1..] == b;
      assert Split(s, sep) == [""] + Split(b, sep);
    } else {
      assert s[1..] == a[1..] + [sep] + b;
      SplitJoins(a[1..], sep, b);
      PrependJoins(a[0], sep, Split(a[1..], sep), Split(b, sep));
      assert Split(s, sep) == Prepend(a[0], sep, Split(s[1..], sep));
    }
  }

  // What precedes the first separator goes to the first piece.
  lemma {:induction false} SplitAfter(head: string, s: string, sep: char)
    requires sep !in head
    ensures Split(head + s, sep) == [head + Split(s, sep)[0]] + Split(s, sep)[1..]
  {
    if head == "" {
      assert head + s == s && head + Split(s, sep)[0] == Split(s, sep)[0];
    } else {
      assert (head + s)[1..] == head[1..] + s;
      SplitAfter(head[1..], s, sep);
      assert [head[0]] + (head[1..] + Split(s, sep)[0]) == head + Split(s, sep)[0];
    }
  }

  // str.join on one character.
  function Joined(parts: seq<string>, sep: char): string {
    if parts == [] then ""
    else if |parts| == 1 then parts[0]
    else parts[0] + [sep] + Joined(parts[1..], sep)
  }

  /** Splitting undoes joining. */
  lemma {:induction false} SplitJoined(parts: seq<string>, sep: char)
    requires parts != [] && forall part :: part in parts ==> sep !in part
    ensures Split(Joined(parts, sep), sep) == parts
  {
    SplitOne(parts[0], sep);
    if |parts| > 1 {
      SplitJoins(parts[0], sep, Joined(parts[1..], sep));
      SplitJoined(parts[1..], sep);
    }
  }

  lemma {:induction false} SplitOne(s: string, sep: char)
    requires sep !in s
    ensures Split(s, sep) == [s]
  {
    if s != "" {
      SplitOne(s[1..], sep);
      assert s == [s[0]] + s[1..];
    }
  }
}
