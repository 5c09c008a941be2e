/**
 * The array-of-bytes compiler of the camera scanner: a Cheat-Engine style
 * signature such as "6D 40 ?? ?? 3F" becomes a pattern byte string and a
 * parallel mask (1 = compare this byte, 0 = wildcard).
 */
module Aob {
  import opened Common
  import opened PyText

  /** One whitespace-separated token of the signature. */
  function CompileToken(tok: string): (r: (byte, byte))
    ensures r.1 == 0 || r.1 == 1
    ensures r.1 == 0 ==> r.0 == 0
  {
    if tok == "??" then (0, 0)
    else match ParseInt(tok, 16)
      case Some(v) => if 0 <= v < 256 then (v as byte, 1) else (0, 0)
      case None => (0, 0)
  }

  /** The pattern and mask of a token list, token by token. */
  function CompileAll(parts: seq<string>): (r: (seq<byte>, seq<byte>))
    ensures |r.0| == |r.1| == |parts|
  {
    if parts == [] then ([], [])
    else
      var prefix := CompileAll(parts[..|parts| - 1]);
      var t := CompileToken(parts[|parts| - 1]);
      (prefix.0 + [t.0], prefix.1 + [t.1])
  }

  lemma {:induction false} CompileAllAt(parts: seq<string>, k: nat)
    requires k < |parts|
    ensures (CompileAll(parts).0[k], CompileAll(parts).1[k]) == CompileToken(parts[k])
    ensures CompileAll(parts).1[k] == 0 || CompileAll(parts).1[k] == 1
  {
    if k < |parts| - 1 {
      CompileAllAt(parts[..|parts| - 1], k);
    }
  }

  /** The body of the compiler's loop: `??`, a byte in hexadecimal, or a wildcard for anything else. */
  method CompileOne(part: string) returns (b: byte, m: byte)
    ensures (b, m) == CompileToken(part)
    ensures m == 1 ==> part != "??" && ParseInt(part, 16) == Some(b as int)
    ensures part == "??" ==> m == 0
  {
    if part == "??" {
      b, m := 0, 0;
    } else {
      var v := ParseInt(part, 16);
      if v.Some? && 0 <= v.value < 256 {
        b, m := v.value as byte, 1;
      } else {
        b, m := 0, 0;
      }
    }
  }

  /**
   * `convert_aob_string_to_pattern`: one pattern byte and one mask byte per
   * token. Compilation never fails; a token that is neither `??` nor a byte in
   * hexadecimal becomes a wildcard.
   */
  method CompileAob(aob: string) returns (pattern: seq<byte>, mask: seq<byte>)
    ensures |pattern| == |mask| == |Split(aob)|
    ensures forall k :: 0 <= k < |pattern| ==> (pattern[k], mask[k]) == CompileToken(Split(aob)[k])
    ensures forall k :: 0 <= k < |mask| ==> mask[k] == 0 || mask[k] == 1
  {
    var parts := Split(aob);
    pattern, mask := [], [];
    var i := 0;
    while i < |parts|
      invariant 0 <= i <= |parts|
      invariant (pattern, mask) == CompileAll(parts[..i])
    {
      var b, m := CompileOne(parts[i]);
      CompileAllSnoc(parts, i);
      pattern, mask := pattern + [b], mask + [m];
      i := i + 1;
    }
    assert parts[..i] == parts;
    CompileAllEach(parts);
  }

  lemma CompileAllSnoc(parts: seq<string>, i: nat)
    requires i < |parts|
    ensures var prefix := CompileAll(parts[..i]); var t := CompileToken(parts[i]);
      CompileAll(parts[..i + 1]) == (prefix.0 + [t.0], prefix.1 + [t.1])
  {
    assert parts[..i + 1][..i] == parts[..i];
    assert parts[..i + 1][i] == parts[i];
  }

  lemma CompileAllEach(parts: seq<string>)
    ensures forall k :: 0 <= k < |parts| ==>
      (CompileAll(parts).0[k], CompileAll(parts).1[k]) == CompileToken(parts[k]) && CompileAll(parts).1[k] <= 1
  {
    forall k | 0 <= k < |parts|
      ensures (CompileAll(parts).0[k], CompileAll(parts).1[k]) == CompileToken(parts[k]) && CompileAll(parts).1[k] <= 1
    {
      CompileAllAt(parts, k);
    }
  }

  // ---------------------------------------------------------------------------
  // Rendering a signature, and compiling it back
  // ---------------------------------------------------------------------------

  /** Upper-case hexadecimal digit, as signatures are written. */
  function UpperDigit(d: nat): (c: char)
    requires d < 16
    ensures DigitValue(c) == Some(d)
  {
    if d < 10 then ('0' as int + d) as char else ('A' as int + d - 10) as char
  }

  /** A byte as the two-digit token of a signature ("0C", "6D"). */
  function TwoHex(b: byte): string {
    [UpperDigit(b as nat / 16), UpperDigit(b as nat % 16)]
  }

  /** A signature entry: a byte to compare, or `None` for `??`. */
  function TokenOf(e: Option<byte>): string {
    match e
    case Some(b) => TwoHex(b)
    case None => "??"
  }

  function Tokens(p: seq<Option<byte>>): (ts: seq<string>)
    ensures |ts| == |p| && forall k :: 0 <= k < |p| ==> ts[k] == TokenOf(p[k])
  {
    if p == [] then [] else [TokenOf(p[0])] + Tokens(p[1..])
  }

  /** The signature text for an entry list, tokens separated by single spaces. */
  function Render(p: seq<Option<byte>>): string {
    JoinSpace(Tokens(p))
  }

  lemma TwoHexParses(b: byte)
    ensures ParseInt(TwoHex(b), 16) == Some(b as int)
  {
    var s := TwoHex(b);
    var hi, lo := b as nat / 16, b as nat % 16;
    assert DigitValue(s[0]) == Some(hi) && DigitValue(s[1]) == Some(lo);
    assert NoSpace(s);
    assert DropPrefix(s, 16) == s;
    assert forall i :: 0 <= i < |s| ==> IsDigit(s[i], 16);
    DigitsAreValid(s, 16);
    assert s[..1] == [s[0]];
    assert DigitsValue(s[..1], 16) == hi;
    assert DigitsValue(s, 16) == b as nat;
    ParseUnsigned(s, 16);
  }

  lemma CompileTokenOf(e: Option<byte>)
    ensures CompileToken(TokenOf(e)) == (if e.Some? then (e.value, 1 as byte) else (0, 0))
  {
    if e.Some? {
      TwoHexParses(e.value);
      assert TwoHex(e.value) != "??" by { assert DigitValue(TwoHex(e.value)[0]).Some?; }
    }
  }

  /**
   * Round trip: splitting a rendered signature gives back one token per entry,
   * and each token compiles to the entry's byte with mask 1, or to a wildcard.
   */
  lemma CompileRender(p: seq<Option<byte>>)
    ensures |Split(Render(p))| == |p|
    ensures forall k :: 0 <= k < |p| ==>
      CompileToken(Split(Render(p))[k]) == (if p[k].Some? then (p[k].value, 1 as byte) else (0, 0))
  {
    var ts := Tokens(p);
    forall k | 0 <= k < |ts| ensures ts[k] != [] && NoSpace(ts[k]) {
      match p[k]
      case None =>
      case Some(b) => assert DigitValue(ts[k][0]).Some? && DigitValue(ts[k][1]).Some?;
    }
    SplitJoinSpace(ts);
    forall k | 0 <= k < |p|
      ensures CompileToken(Split(Render(p))[k]) == (if p[k].Some? then (p[k].value, 1 as byte) else (0, 0))
    {
      CompileTokenOf(p[k]);
    }
  }

  /** A hexadecimal token above 0xFF does not fit a byte and becomes a wildcard. */
  lemma OutOfRangeTokenIsWildcard()
    ensures CompileToken("100") == (0, 0)
  {
    var s := "100";
    assert NoSpace(s);
    assert DropPrefix(s, 16) == s;
    assert forall i :: 0 <= i < |s| ==> IsDigit(s[i], 16);
    DigitsAreValid(s, 16);
    assert s[..2] == "10" && s[..2][..1] == "1" && s[..2][..1][..0] == [];
    assert DigitsValue("1", 16) == 1;
    assert DigitsValue("10", 16) == 16;
    assert DigitsValue(s, 16) == 256;
    ParseUnsigned(s, 16);
  }

  /** A token that is not hexadecimal becomes a wildcard. */
  lemma BadHexTokenIsWildcard()
    ensures CompileToken("4G") == (0, 0)
  {
    var s := "4G";
    assert NoSpace(s);
    StripNoSpace(s);
    assert DropPrefix(s, 16) == s;
    assert s[1] == 'G' && DigitValue(s[1]) == None;
    assert !(IsDigit(s[1], 16) || s[1] == '_');
    assert !ValidDigits(s, 16);
    assert ParseInt(s, 16) == None;
  }
}
