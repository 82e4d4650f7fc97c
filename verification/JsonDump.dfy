/** The compact UTF-8 JSON text whose size the compaction measures, written out byte by byte. */
module JsonDump {
  import opened Options
  import opened Text
  import opened Compaction

  /** The UTF-8 encoding of a code point (section 3 of RFC 3629). */
  function Utf8(n: nat): seq<nat> {
    if n < 0x80 then [n]
    else if n < 0x800 then [0xC0 + n / 0x40, 0x80 + n % 0x40]
    else if n < 0x10000 then [0xE0 + n / 0x1000, 0x80 + n / 0x40 % 0x40, 0x80 + n % 0x40]
    else [0xF0 + n / 0x40000, 0x80 + n / 0x1000 % 0x40, 0x80 + n / 0x40 % 0x40, 0x80 + n % 0x40]
  }

  function HexDigit(n: nat): nat
    requires n < 16
  {
    if n < 10 then '0' as nat + n else 'a' as nat + n - 10
  }

  /** One character inside a JSON string (section 7 of RFC 8259): two-character escapes, \u00xx for other controls, UTF-8 otherwise. */
  function CharDump(c: char): seq<nat> {
    var n := c as nat;
    if n == 0x22 || n == 0x5C then [0x5C, n]
    else if n == 0x08 then [0x5C, 'b' as nat]
    else if n == 0x09 then [0x5C, 't' as nat]
    else if n == 0x0A then [0x5C, 'n' as nat]
    else if n == 0x0C then [0x5C, 'f' as nat]
    else if n == 0x0D then [0x5C, 'r' as nat]
    else if n < 0x20 then [0x5C, 'u' as nat, '0' as nat, '0' as nat, HexDigit(n / 16), HexDigit(n % 16)]
    else Utf8(n)
  }

  function Chars(s: string): seq<nat> {
    if s == "" then [] else CharDump(s[0]) + Chars(s[1..])
  }

  function StringDump(s: string): seq<nat> {
    [0x22] + Chars(s) + [0x22]
  }

  function Elements(items: seq<string>): seq<nat> {
    if items == [] then []
    else if |items| == 1 then StringDump(items[0])
    else StringDump(items[0]) + [0x2C] + Elements(items[1..])
  }

  /** The array as `json.dumps` writes it without spaces. */
  function ArrayDump(items: seq<string>): seq<nat> {
    [0x5B] + Elements(items) + [0x5D]
  }

  lemma CharSize(c: char)
    ensures |CharDump(c)| == CharBytes(c)
  {
  }

  lemma {:induction false} CharsSnoc(s: string, c: char)
    ensures Chars(s + [c]) == Chars(s) + CharDump(c)
    decreases |s|
  {
    hide CharDump;
    if s == "" {
      assert [c][1..] == [];
      assert Chars([c]) == CharDump(c) + [];
    } else {
      CharsSnoc(s[1..], c);
      assert (s + [c])[1..] == s[1..] + [c];
    }
  }

  lemma {:induction false} CharsSize(s: string)
    ensures |Chars(s)| == TextBytes(s)
    decreases |s|
  {
    if s != "" {
      var n := |s| - 1;
      CharsSize(s[..n]);
      CharSize(s[n]);
      CharsSnoc(s[..n], s[n]);
      assert s == s[..n] + [s[n]];
    }
  }

  lemma {:induction false} ElementsSnoc(items: seq<string>, s: string)
    requires items != []
    ensures Elements(items + [s]) == Elements(items) + [0x2C] + StringDump(s)
    decreases |items|
  {
    hide StringDump;
    if |items| > 1 {
      ElementsSnoc(items[1..], s);
      assert (items + [s])[1..] == items[1..] + [s];
    } else {
      assert (items + [s])[1..] == [s];
    }
  }

  /** The size the code measures is the length of the array it would send. */
  lemma {:induction false} ArraySize(items: seq<string>)
    ensures |ArrayDump(items)| == ArrayBytes(items)
    decreases |items|
  {
    if items != [] {
      var n := |items| - 1;
      CharsSize(items[n]);
      if n > 0 {
        ArraySize(items[..n]);
        ElementsSnoc(items[..n], items[n]);
        assert items == items[..n] + [items[n]];
      }
    }
  }

  /** A bullet is one of three marks followed by a space at the start of the text. */
  lemma BulletedIff(t: string)
    ensures Bulleted(t) <==> "- " <= t || "* " <= t || "\U{2022} " <= t
  {
  }

  /** What the contract check of a section accepts, and that it then returns every item stripped. */
  lemma NormalizeExactly(items: seq<string>)
    ensures Normalize(items).Some? <==>
            && |items| <= 500 && |ArrayDump(StripAll(items))| <= 60_000
            && forall i :: 0 <= i < |items| ==> Strip(items[i]) != "" && !Bulleted(Strip(items[i]))
    ensures Normalize(items).Some? ==>
              |Normalize(items).value| == |items| && forall i :: 0 <= i < |items| ==> Normalize(items).value[i] == Strip(items[i])
  {
    ArraySize(StripAll(items));
    hide Strip, Bulleted, ArrayBytes, ArrayDump, StripAll;
    assert forall i :: 0 <= i < |items| ==> (ItemOk(items[i]) <==> Strip(items[i]) != "" && !Bulleted(Strip(items[i])));
    StripAllAt(items);
  }

  lemma StripAllAt(items: seq<string>)
    ensures |StripAll(items)| == |items| && forall i :: 0 <= i < |items| ==> StripAll(items)[i] == Strip(items[i])
  {
    hide Strip;
  }
}
