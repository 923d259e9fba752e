/**
 * Braille mappings: a 64-entry table from dot combinations to operations, and the
 * `.bsc` script parser that fills it (`BrailleMapping`, server/src/main.rs:543-610).
 */
module BrailleMappings {
  import opened Wrappers
  import opened Text
  import opened Operations

  /** The number of table entries: every subset of the six braille dots. */
  const TableSize := 64

  /** A named table; entry `c` is the operation for dot combination `c`, if any. */
  datatype BrailleMapping = BrailleMapping(name: string, table: seq<Option<Operation>>)
  {
    predicate Valid() {
      |table| == TableSize
    }

    /** `BrailleMapping::get`. */
    function Get(combination: nat): (r: Option<Operation>)
      requires Valid() && combination < TableSize
      ensures r == table[combination]
    {
      table[combination]
    }

    /** `BrailleMapping::set`: one entry replaced, the name and every other entry kept. */
    function Set(combination: nat, operation: Option<Operation>): (r: BrailleMapping)
      requires Valid() && combination < TableSize
      ensures r.Valid() && r.name == name
      ensures r.Get(combination) == operation
      ensures forall c :: 0 <= c < TableSize && c != combination ==> r.Get(c) == Get(c)
    {
      BrailleMapping(name, table[combination := operation])
    }
  }

  /** `BrailleMapping::new`: every combination unbound. */
  function Empty(name: string): (m: BrailleMapping)
    ensures m.Valid() && m.name == name
    ensures forall c :: 0 <= c < TableSize ==> m.Get(c) == None
  {
    BrailleMapping(name, seq(TableSize, _ => None))
  }

  // ---------------------------------------------------------------------------------------
  // Dot digits and their bitmask
  // ---------------------------------------------------------------------------------------

  predicate IsDotDigit(ch: char) {
    '1' <= ch <= '6'
  }

  predicate AllDotDigits(s: string) {
    forall i :: 0 <= i < |s| ==> IsDotDigit(s[i])
  }

  /** The digit naming dot `k + 1`. */
  function DotDigit(k: nat): char
    requires k < 6
  {
    ('1' as int + k) as char
  }

  /** Bit `k` of a combination, `2^k`. */
  function Bit(k: nat): bv8
    requires k < 6
  {
    if k == 0 then 1 else if k == 1 then 2 else if k == 2 then 4
    else if k == 3 then 8 else if k == 4 then 16 else 32
  }

  /** Dot `d` is bit `d - 1`: the source's `2usize.pow(d - 1)`. */
  function DotBit(ch: char): bv8
    requires IsDotDigit(ch)
  {
    Bit(ch as int - '1' as int)
  }

  /** The combination of a digit string: the OR of its dots' bits. */
  function DotsMask(digits: string): bv8
    requires AllDotDigits(digits)
  {
    if digits == [] then 0 else DotsMask(digits[..|digits| - 1]) | DotBit(digits[|digits| - 1])
  }

  /** A bit of an OR is set when it is set in either operand; the top bits likewise. */
  lemma OrBits(a: bv8, b: bv8, k: nat)
    requires k < 6
    ensures (a | b) & Bit(k) != 0 <==> a & Bit(k) != 0 || b & Bit(k) != 0
    ensures a & 0xC0 == 0 && b & 0xC0 == 0 ==> (a | b) & 0xC0 == 0
  {
  }

  /** The bit of dot `k0 + 1` is bit `k0` alone, below the top bits. */
  lemma DotBitBits(ch: char, k: nat)
    requires IsDotDigit(ch) && k < 6
    ensures DotBit(ch) & Bit(k) != 0 <==> DotDigit(k) == ch
    ensures DotBit(ch) & 0xC0 == 0
  {
  }

  /** The two top bits of a mask are clear. */
  lemma {:induction false} DotsMaskHigh(digits: string)
    requires AllDotDigits(digits)
    ensures DotsMask(digits) & 0xC0 == 0
  {
    if digits != [] {
      var init := digits[..|digits| - 1];
      var last := digits[|digits| - 1];
      DotsMaskHigh(init);
      OrBits(DotsMask(init), DotBit(last), 0);
      DotBitBits(last, 0);
    }
  }

  /** Bit `k` of the mask is set exactly when dot `k + 1` is among the digits. */
  lemma {:induction false} DotsMaskBit(digits: string, k: nat)
    requires AllDotDigits(digits) && k < 6
    ensures DotsMask(digits) & Bit(k) != 0 <==> DotDigit(k) in digits
  {
    if digits != [] {
      var init := digits[..|digits| - 1];
      var last := digits[|digits| - 1];
      var m := DotsMask(init);
      var b := DotBit(last);
      assert DotsMask(digits) == m | b;
      DotsMaskBit(init, k);
      OrBits(m, b, k);
      DotBitBits(last, k);
      assert digits == init + [last];
      assert DotDigit(k) in digits <==> DotDigit(k) in init || DotDigit(k) == last;
    }
  }

  /**
   * The mask holds exactly the bits of the dots among the digits, and its two top bits
   * are clear, so it is a table index.
   */
  lemma DotsMaskBits(digits: string)
    requires AllDotDigits(digits)
    ensures DotsMask(digits) & 0xC0 == 0
    ensures forall k :: 0 <= k < 6 ==> (DotsMask(digits) & Bit(k) != 0 <==> DotDigit(k) in digits)
  {
    DotsMaskHigh(digits);
    forall k | 0 <= k < 6 ensures DotsMask(digits) & Bit(k) != 0 <==> DotDigit(k) in digits {
      DotsMaskBit(digits, k);
    }
  }

  /** A non-empty digit string gives a non-zero combination below 64. */
  lemma DotsMaskRange(digits: string)
    requires AllDotDigits(digits) && digits != []
    ensures 0 < DotsMask(digits) as int < TableSize
  {
    DotsMaskBits(digits);
    var k := digits[0] as int - '1' as int;
    assert DotDigit(k) == digits[0];
  }

  // ---------------------------------------------------------------------------------------
  // Assignment lines
  // ---------------------------------------------------------------------------------------

  /** The index of the last occurrence of `c` in `s`. */
  function LastIndexOfChar(s: string, c: char): (i: nat)
    requires c in s
    ensures i < |s| && s[i] == c && c !in s[i + 1..]
  {
    if s[|s| - 1] == c then |s| - 1 else
      assert c in s[..|s| - 1] by {
        var j :| 0 <= j < |s| && s[j] == c;
        assert s[..|s| - 1][j] == c;
      }
      LastIndexOfChar(s[..|s| - 1], c)
  }

  /**
   * The assignment `<operation>=<dots>`: the text before the last `=` and the non-empty
   * string of dot digits after it, the reading of the pattern `^(.*)=([1-6]+)$`.
   */
  function SplitAssignment(line: string): Option<(string, string)> {
    if '=' !in line then None
    else
      var j := LastIndexOfChar(line, '=');
      var digits := line[j + 1..];
      if digits != [] && AllDotDigits(digits) then Some((line[..j], digits)) else None
  }

  /** The split succeeds exactly on the lines that are some text, `=`, and dot digits. */
  lemma SplitAssignmentMeaning(line: string, text: string, digits: string)
    ensures line == text + "=" + digits && digits != [] && AllDotDigits(digits)
            <==> SplitAssignment(line) == Some((text, digits))
  {
    if line == text + "=" + digits && digits != [] && AllDotDigits(digits) {
      assert '=' in line by { assert line[|text|] == '='; }
      var j := LastIndexOfChar(line, '=');
      assert '=' !in digits;
      assert j == |text|;
      assert line[j + 1..] == digits;
      assert line[..j] == text;
    }
    if SplitAssignment(line) == Some((text, digits)) {
      var j := LastIndexOfChar(line, '=');
      assert line == line[..j] + "=" + line[j + 1..];
    }
  }

  /**
   * What one script line binds, if anything: blank lines and `//` comments are skipped,
   * lines that are not assignments only draw a warning.
   */
  function LineBinding(line: string): Option<(Operation, nat)> {
    if line == "" || StartsWith(line, "//") then None
    else match SplitAssignment(line)
      case None => None
      case Some((text, digits)) => Some((Parse(text), DotsMask(digits) as nat))
  }

  lemma LineBindingRange(line: string)
    requires LineBinding(line).Some?
    ensures 0 < LineBinding(line).value.1 < TableSize
  {
    var (text, digits) := SplitAssignment(line).value;
    DotsMaskRange(digits);
  }

  /** What each line of a script binds. */
  function LineBindings(lines: seq<string>): (bs: seq<Option<(Operation, nat)>>)
    ensures |bs| == |lines| && forall k :: 0 <= k < |lines| ==> bs[k] == LineBinding(lines[k])
  {
    seq(|lines|, k requires 0 <= k < |lines| => LineBinding(lines[k]))
  }

  /** Whether a line's binding assigns combination `c`. */
  predicate Assigns(b: Option<(Operation, nat)>, c: nat) {
    b.Some? && b.value.1 == c
  }

  /**
   * The last binding of `bs` that assigns `c`: no later one assigns it again, and when
   * there is none, no binding assigns it at all.
   */
  function LastAssignment(bs: seq<Option<(Operation, nat)>>, c: nat): (r: Option<nat>)
    ensures r.Some? ==>
      (r.value < |bs| && Assigns(bs[r.value], c) && forall k :: r.value < k < |bs| ==> !Assigns(bs[k], c))
    ensures r.None? ==> forall k :: 0 <= k < |bs| ==> !Assigns(bs[k], c)
  {
    if bs == [] then None
    else if Assigns(bs[|bs| - 1], c) then Some(|bs| - 1)
    else
      var init := bs[..|bs| - 1];
      assert forall k :: 0 <= k < |init| ==> init[k] == bs[k];
      LastAssignment(init, c)
  }

  /** The operation the last assignment of `c` gives it, if any. */
  function LastBinding(bs: seq<Option<(Operation, nat)>>, c: nat): Option<Operation> {
    match LastAssignment(bs, c)
    case Some(k) => Some(bs[k].value.0)
    case None => None
  }

  /** One more line: it decides the combination it assigns and leaves the others alone. */
  lemma LastBindingStep(bs: seq<Option<(Operation, nat)>>, i: nat, c: nat)
    requires i < |bs|
    ensures LastBinding(bs[..i + 1], c) ==
      if Assigns(bs[i], c) then Some(bs[i].value.0) else LastBinding(bs[..i], c)
  {
    assert bs[..i + 1][..i] == bs[..i];
  }

  /** `after` is `before` with the assignment of `b`, if any, applied. */
  predicate Applied(before: BrailleMapping, b: Option<(Operation, nat)>, after: BrailleMapping)
    requires before.Valid() && after.Valid()
  {
    forall c :: 0 <= c < TableSize ==> after.Get(c) == if Assigns(b, c) then Some(b.value.0) else before.Get(c)
  }

  /** No script binds the empty combination: every assignment names at least one dot. */
  lemma ScriptNeverBindsZero(lines: seq<string>)
    ensures LastBinding(LineBindings(lines), 0) == None
  {
    var bs := LineBindings(lines);
    if LastAssignment(bs, 0).Some? {
      LineBindingRange(lines[LastAssignment(bs, 0).value]);
    }
  }

  /**
   * `BrailleMapping::from_script` with the evident meaning of its pattern (see README,
   * Findings): every combination holds the operation of the last line that assigns it.
   */
  method FromScript(name: string, script: string) returns (mapping: BrailleMapping)
    ensures mapping.Valid() && mapping.name == name
    ensures forall c :: 0 <= c < TableSize ==> mapping.Get(c) == LastBinding(LineBindings(Lines(script)), c)
  {
    mapping := Empty(name);
    var lines := Lines(script);
    ghost var bs := LineBindings(lines);
    var i := 0;
    while i < |lines|
      invariant 0 <= i <= |lines|
      invariant mapping.Valid() && mapping.name == name
      invariant forall c :: 0 <= c < TableSize ==> mapping.Get(c) == LastBinding(bs[..i], c)
    {
      var line := lines[i];
      ghost var before := mapping;
      if line == "" || StartsWith(line, "//") {
        assert bs[i] == None;
      } else {
        match SplitAssignment(line)
        case None =>
          assert bs[i] == None;
        case Some((text, digits)) =>
          assert bs[i] == Some((Parse(text), DotsMask(digits) as nat));
          LineBindingRange(line);
          var combination := DotsMask(digits) as nat;
          mapping := mapping.Set(combination, Some(Parse(text)));
      }
      assert Applied(before, bs[i], mapping);
      forall c | 0 <= c < TableSize
        ensures mapping.Get(c) == LastBinding(bs[..i + 1], c)
      {
        LastBindingStep(bs, i, c);
      }
      i := i + 1;
    }
    assert bs[..i] == bs;
  }

  // ---------------------------------------------------------------------------------------
  // The parser as written
  // ---------------------------------------------------------------------------------------

  /** The assignment pattern as written, `^.*=([1-6]+)$`, and as its use of groups 1 and 2 needs it, `^(.*)=([1-6]+)$`. */
  datatype Pattern = WrittenPattern | IntendedPattern

  /**
   * The capture groups a pattern yields on an assignment line: group 0 is the whole line;
   * the written pattern captures only the digits, the intended one the text and the digits.
   */
  function Captures(pattern: Pattern, line: string): seq<Option<string>>
    requires SplitAssignment(line).Some?
  {
    var (text, digits) := SplitAssignment(line).value;
    match pattern
    case WrittenPattern => [Some(line), Some(digits)]
    case IntendedPattern => [Some(line), Some(text), Some(digits)]
  }

  /** `Captures::get`: None past the last group. */
  function CaptureGet(caps: seq<Option<string>>, i: nat): Option<string> {
    if i < |caps| then caps[i] else None
  }

  /**
   * The loop of `from_script` with a given pattern, None standing for a panic: an
   * assignment line unwraps groups 1 and 2 and then folds the digits into a combination.
   */
  function LoadScript(pattern: Pattern, lines: seq<string>, mapping: BrailleMapping): Option<BrailleMapping>
    requires mapping.Valid()
  {
    if lines == [] then Some(mapping)
    else
      var line := lines[0];
      if line == "" || StartsWith(line, "//") || SplitAssignment(line).None? then
        LoadScript(pattern, lines[1..], mapping)
      else
        var caps := Captures(pattern, line);
        if CaptureGet(caps, 1).None? || CaptureGet(caps, 2).None? then None
        else
          var operation := Parse(CaptureGet(caps, 1).value);
          var digits := CaptureGet(caps, 2).value;
          if AllDotDigits(digits) && DotsMask(digits) as int < TableSize
          then LoadScript(pattern, lines[1..], mapping.Set(DotsMask(digits) as nat, Some(operation)))
          else None
  }

  /** As written, loading panics exactly when the script has an assignment line at all. */
  lemma {:induction false} WrittenPatternPanics(lines: seq<string>, mapping: BrailleMapping)
    requires mapping.Valid()
    ensures LoadScript(WrittenPattern, lines, mapping).None? <==> exists k :: 0 <= k < |lines| && LineBinding(lines[k]).Some?
  {
    if lines != [] {
      WrittenPatternPanics(lines[1..], mapping);
      assert forall k :: 1 <= k < |lines| ==> lines[k] == lines[1..][k - 1];
      if LineBinding(lines[0]).None? {
        if exists k :: 0 <= k < |lines| && LineBinding(lines[k]).Some? {
          var k :| 0 <= k < |lines| && LineBinding(lines[k]).Some?;
          assert LineBinding(lines[1..][k - 1]).Some?;
        }
      }
    }
  }

  /** With the intended pattern, loading never panics. */
  lemma {:induction false} IntendedPatternLoads(lines: seq<string>, mapping: BrailleMapping)
    requires mapping.Valid()
    ensures LoadScript(IntendedPattern, lines, mapping).Some?
  {
    if lines != [] {
      var line := lines[0];
      if line == "" || StartsWith(line, "//") || SplitAssignment(line).None? {
        IntendedPatternLoads(lines[1..], mapping);
      } else {
        var (text, digits) := SplitAssignment(line).value;
        DotsMaskRange(digits);
        IntendedPatternLoads(lines[1..], mapping.Set(DotsMask(digits) as nat, Some(Parse(text))));
      }
    }
  }
}
