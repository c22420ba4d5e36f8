/** Each printed line of a drum block, read back. */
module DrumReading {
  import opened Wrappers
  import opened TextTools
  import opened DrumPattern

  // ----- Numbers read back

  lemma DigitBack(d: nat)
    requires d < 10
    ensures IsDigit("0123456789"[d]) && DigitValue("0123456789"[d]) == d
  {
  }

  lemma {:induction false} DecimalBack(n: nat)
    ensures Decimal(n) != [] && forall k :: 0 <= k < |Decimal(n)| ==> IsDigit(Decimal(n)[k])
    ensures DecimalValue(Decimal(n)) == n
  {
    if n < 10 {
      assert Decimal(n)[..0] == [];
    } else {
      DecimalBack(n / 10);
      DigitBack(n % 10);
      assert Decimal(n) == Decimal(n / 10) + ["0123456789"[n % 10]];
      assert Decimal(n)[..|Decimal(n)| - 1] == Decimal(n / 10);
    }
  }

  lemma {:induction false} BinaryBack(n: nat)
    ensures Binary(n) != [] && forall k :: 0 <= k < |Binary(n)| ==> IsBit(Binary(n)[k])
    ensures BinaryValue(Binary(n)) == n
  {
    if n < 2 {
      assert Binary(n)[..0] == [];
    } else {
      BinaryBack(n / 2);
      assert Binary(n)[..|Binary(n)| - 1] == Binary(n / 2);
    }
  }

  function Power(k: nat): nat {
    if k == 0 then 1 else 2 * Power(k - 1)
  }

  lemma {:induction false} BinaryShort(n: nat, k: nat)
    requires k > 0 && n < Power(k)
    ensures |Binary(n)| <= k
  {
    if n >= 2 { BinaryShort(n / 2, k - 1); }
  }

  lemma {:induction false} ZeroLeads(s: string)
    requires forall k :: 0 <= k < |s| ==> IsBit(s[k])
    ensures BinaryValue(['0'] + s) == BinaryValue(s)
  {
    if s != [] {
      var last := |s| - 1;
      ZeroLeads(s[..last]);
      assert (['0'] + s)[..|['0'] + s| - 1] == ['0'] + s[..last];
    } else {
      assert (['0'] + s)[..0] == [];
    }
  }

  lemma {:induction false} ZeroFilledBack(s: string)
    requires |s| <= BITS && forall k :: 0 <= k < |s| ==> IsBit(s[k])
    ensures |ZeroFilled(s)| == BITS && forall k :: 0 <= k < |ZeroFilled(s)| ==> IsBit(ZeroFilled(s)[k])
    ensures BinaryValue(ZeroFilled(s)) == BinaryValue(s)
    decreases BITS - |s|
  {
    if |s| < BITS {
      ZeroLeads(s);
      ZeroFilledBack(['0'] + s);
    }
  }

  lemma PowerOfWord()
    ensures Power(16) == 65536
  {
    assert Power(4) == 16;
    assert Power(8) == 256 by { assert Power(6) == 64; }
    assert Power(12) == 4096 by { assert Power(10) == 1024; }
    assert Power(14) == 16384;
  }

  /** A 16-bit word is printed in exactly sixteen bits that read back as the word. */
  lemma BitsBack(word: nat)
    requires word < 65536
    ensures |Bits(word)| == BITS && forall k :: 0 <= k < BITS ==> IsBit(Bits(word)[k])
    ensures BinaryValue(Bits(word)) == word
  {
    PowerOfWord();
    BinaryBack(word);
    BinaryShort(word, BITS);
    ZeroFilledBack(Binary(word));
  }

  // ----- Runs at the front of a text

  lemma {:induction false} DigitRunOver(s: string, rest: string)
    requires forall k :: 0 <= k < |s| ==> IsDigit(s[k])
    requires rest == [] || !IsDigit(rest[0])
    ensures DigitRun(s + rest) == |s|
  {
    if s == [] {
      assert s + rest == rest;
    } else {
      assert (s + rest)[1..] == s[1..] + rest;
      DigitRunOver(s[1..], rest);
    }
  }

  lemma {:induction false} BitRunOver(s: string, rest: string)
    requires forall k :: 0 <= k < |s| ==> IsBit(s[k]) || s[k] == '_'
    requires rest == [] || !(IsBit(rest[0]) || rest[0] == '_')
    ensures BitRun(s + rest) == |s|
  {
    if s == [] {
      assert s + rest == rest;
    } else {
      assert (s + rest)[1..] == s[1..] + rest;
      BitRunOver(s[1..], rest);
    }
  }

  lemma {:induction false} UngroupedBits(s: string, rest: string)
    requires forall k :: 0 <= k < |s| ==> IsBit(s[k])
    ensures Ungrouped(s + rest) == s + Ungrouped(rest)
  {
    if s == [] {
      assert s + rest == rest;
    } else {
      assert (s + rest)[1..] == s[1..] + rest;
      UngroupedBits(s[1..], rest);
    }
  }

  lemma UngroupedMark(rest: string)
    ensures Ungrouped("_" + rest) == Ungrouped(rest)
  {
    var s := "_" + rest;
    assert s[1..] == rest && s[0] == '_';
    assert Ungrouped(s) == [] + Ungrouped(s[1..]);
  }

  /** One group of a literal and the mark after it. */
  lemma UngroupedGroup(s: string, rest: string)
    requires forall k :: 0 <= k < |s| ==> IsBit(s[k])
    ensures Ungrouped(s + ("_" + rest)) == s + Ungrouped(rest)
  {
    hide Ungrouped;
    UngroupedBits(s, "_" + rest);
    UngroupedMark(rest);
  }

  /** The digits of a literal in four groups. */
  function Groups(bits: string): string
    requires |bits| == BITS
  {
    bits[0..4] + ("_" + (bits[4..8] + ("_" + (bits[8..12] + ("_" + bits[12..16])))))
  }

  lemma GroupsMarked(bits: string)
    requires |bits| == BITS && forall k :: 0 <= k < BITS ==> IsBit(bits[k])
    ensures forall k :: 0 <= k < |Groups(bits)| ==> IsBit(Groups(bits)[k]) || Groups(bits)[k] == '_'
  {
  }

  /** The four groups of a literal, put back together. */
  lemma UngroupedLiteral(bits: string)
    requires |bits| == BITS && forall k :: 0 <= k < BITS ==> IsBit(bits[k])
    ensures Ungrouped(Groups(bits)) == bits
  {
    hide Ungrouped;
    var a, b, c, d := bits[0..4], bits[4..8], bits[8..12], bits[12..16];
    UngroupedGroup(a, b + ("_" + (c + ("_" + d))));
    UngroupedGroup(b, c + ("_" + d));
    UngroupedGroup(c, d);
    UngroupedAll(d);
    assert a + (b + (c + d)) == bits;
  }

  lemma UngroupedAll(s: string)
    requires forall k :: 0 <= k < |s| ==> IsBit(s[k])
    ensures Ungrouped(s) == s
  {
    UngroupedBits(s, []);
    assert s + [] == s;
  }

  // ----- Names of drums

  predicate IsLetter(c: char) {
    'A' <= c <= 'Z' || 'a' <= c <= 'z' || c == '_'
  }

  /** A drum name must be an identifier. */
  predicate IsDrumName(drum: string) {
    drum != [] && IsLetter(drum[0]) && forall k :: 0 <= k < |drum| ==> IsLetter(drum[k]) || IsDigit(drum[k])
  }

  // ----- The meaning of each printed line

  lemma ReadName(t: Style, drum: string, bit: nat, name: string)
    requires Sane(t) && bit < BITS && Strip(t.space, name) == name
    ensures Reading(t, drum, NameLine(bit, name)) == Name(bit, name)
  {
    var text := NameLine(bit, name);
    DecimalBack(bit);
    assert text[4..] == Decimal(bit) + (": " + name);
    DigitRunOver(Decimal(bit), ": " + name);
    assert text[4..][..|Decimal(bit)|] == Decimal(bit);
    assert text[4..][|Decimal(bit)|..] == ": " + name;
    assert text[4..][|Decimal(bit)| + 2..] == name;
  }

  /** One blank and then something that is not blank. */
  lemma OneBlank(t: Style, s: string)
    requires Sane(t) && s != [] && '!' <= s[0] <= '~'
    ensures Lead(t.space, " " + s) == s
  {
    assert (" " + s)[1..] == s;
  }

  lemma ReadCount(t: Style, drum: string, steps: nat)
    requires Sane(t) && IsDrumName(drum)
    ensures Reading(t, drum, CountLine(drum, steps)) == Count(steps)
  {
    var n, prefix := Decimal(steps), drum + "_NSTEPS";
    var text := CountLine(drum, steps);
    var value := n + ";";
    DecimalBack(steps);
    assert text[0] == drum[0];
    assert text == prefix + (" " + (":" + (" " + ("INT" + (" " + (":=" + (" " + value)))))));
    Token(t, prefix, ":" + (" " + ("INT" + (" " + (":=" + (" " + value))))));
    Token(t, ":", "INT" + (" " + (":=" + (" " + value))));
    Token(t, "INT", ":=" + (" " + value));
    Token(t, ":=", value);
    DigitRunOver(n, ";");
    assert value[|n|..] == ";" && value[..|n|] == n;
    assert Lead(t.space, ";") == ";";
  }

  lemma Token(t: Style, token: string, rest: string)
    requires Sane(t) && rest != [] && '!' <= rest[0] <= '~'
    ensures After(t, token, Some(token + (" " + rest))) == Some(rest)
  {
    OneBlank(t, rest);
    assert (token + (" " + rest))[|token|..] == " " + rest;
  }

  /** A line that starts like none of the three shapes says nothing. */
  lemma SaysNothing(t: Style, drum: string, text: string)
    requires !("// B" <= text) && !("2#" <= text) && !(drum + "_NSTEPS" <= text)
    ensures Reading(t, drum, text) == Other
  {
  }

  lemma ReadArray(t: Style, drum: string)
    requires IsDrumName(drum)
    ensures Reading(t, drum, ArrayLine(drum)) == Other
  {
    var text := ArrayLine(drum);
    assert text[0] == drum[0];
    assert text[|drum| + 1] == 'P';
    assert (drum + "_NSTEPS")[|drum| + 1] == 'N';
    SaysNothing(t, drum, text);
  }

  lemma ReadMarks(t: Style, drum: string)
    requires IsDrumName(drum)
    ensures Reading(t, drum, Begin(drum)) == Other && Reading(t, drum, End(drum)) == Other
    ensures Reading(t, drum, "];") == Other
  {
    assert Begin(drum)[3] == 'T' && End(drum)[3] == 'T';
    assert Begin(drum)[0] == '/' && End(drum)[0] == '/';
    assert (drum + "_NSTEPS")[0] == drum[0];
    SaysNothing(t, drum, Begin(drum));
    SaysNothing(t, drum, End(drum));
    SaysNothing(t, drum, "];");
  }

  /** A word line without its indentation. */
  function BareWordLine(step: nat, steps: nat, word: nat): string {
    BinaryLiteral(word) + WordNote(step, steps)
  }

  lemma BareWord(step: nat, steps: nat, word: nat)
    ensures WordLine(step, steps, word) == INDENT + BareWordLine(step, steps, word)
  {
    hide BinaryLiteral, Decimal;
  }

  /** What follows the literal of a word line. */
  function WordNote(step: nat, steps: nat): string {
    (if step < MAX_STEPS - 1 then "," else "") + ("  // step " + (Decimal(step) + (if step < steps then "" else " (unused)")))
  }

  lemma WordLineParts(step: nat, steps: nat, word: nat)
    requires |Bits(word)| == BITS
    ensures BareWordLine(step, steps, word) == "2#" + (Groups(Bits(word)) + WordNote(step, steps))
  {
    hide Bits, Decimal;
    assert BinaryLiteral(word) == "2#" + Groups(Bits(word));
  }

  lemma ReadLiteral(bits: string, note: string)
    requires |bits| == BITS && forall k :: 0 <= k < BITS ==> IsBit(bits[k])
    requires note != [] && (note[0] == ',' || note[0] == ' ')
    ensures WordAs("2#" + (Groups(bits) + note)) == Word(BinaryValue(bits))
  {
    hide Groups, BitRun, Ungrouped, BinaryValue;
    var text := "2#" + (Groups(bits) + note);
    assert text[2..] == Groups(bits) + note;
    GroupsMarked(bits);
    BitRunOver(Groups(bits), note);
    UngroupedLiteral(bits);
    assert text[2..][..|Groups(bits)|] == Groups(bits);
    assert bits[0] == Ungrouped(Groups(bits))[0];
    assert Groups(bits) != [] by { if Groups(bits) == [] { UngroupedAll([]); } }
  }

  /** A line that starts with a literal is neither a name nor a count. */
  lemma OnlyWord(t: Style, drum: string, text: string)
    requires text != [] && text[0] == '2' && IsDrumName(drum)
    ensures Reading(t, drum, text) == WordAs(text)
  {
    hide WordAs, DigitRun, Lead;
    assert (drum + "_NSTEPS")[0] == drum[0];
    assert !(drum + "_NSTEPS" <= text);
    assert !("// B" <= text);
  }

  lemma ReadWord(t: Style, drum: string, step: nat, steps: nat, word: nat)
    requires IsDrumName(drum) && word < 65536
    ensures Reading(t, drum, BareWordLine(step, steps, word)) == Word(word)
  {
    hide Bits, Groups, BareWordLine, Reading, WordAs, Decimal;
    BitsBack(word);
    WordLineParts(step, steps, word);
    ReadLiteral(Bits(word), WordNote(step, steps));
    OnlyWord(t, drum, BareWordLine(step, steps, word));
  }
}
