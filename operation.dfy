/**
 * Operations and their compilation from shortcut text (`Operation::from_str`,
 * server/src/main.rs:803-923).
 */
module Operations {
  import opened Wrappers
  import opened Text

  /** The keys the engine can name: the parser's vocabulary plus the five modifier keys. */
  datatype Key =
    | LeftArrow | RightArrow | UpArrow | DownArrow | Tab | Home | End | PageUp | PageDown
    | Delete | Backspace | Return | Space | Escape
    | F1 | F2 | F3 | F4 | F5 | F6 | F7 | F8 | F9 | F10 | F11 | F12
    | Meta | Control | Shift | Alt | CapsLock
    | Layout(c: char)

  /** A braille mapping-stack directive. */
  datatype SwitchType = Append(name: string) | TemporaryAppend(name: string) | Return | Default

  /** What a binding does: a key combination, a mapping switch, or nothing (`Operation::None`). */
  datatype Operation =
    | Shortcut(ctrl: bool, shift: bool, alt: bool, meta: bool, capsLock: bool, key: Key)
    | SchemeSwitch(switchType: SwitchType)
    | NoOp

  // ---------------------------------------------------------------------------------------
  // Scheme-switch directives: the pattern ^(&+)([^&].*)$, checked on the raw input
  // ---------------------------------------------------------------------------------------

  /** The length of the run of '&' that starts `s`. */
  function LeadingAmpersands(s: string): (n: nat)
    ensures n <= |s|
    ensures forall i :: 0 <= i < n ==> s[i] == '&'
    ensures n < |s| ==> s[n] != '&'
  {
    if s != [] && s[0] == '&' then 1 + LeadingAmpersands(s[1..]) else 0
  }

  /**
   * One or more '&', then a character other than '&', then anything without a line
   * feed (a regex `.` does not match "\n" and `$` is the end of the text).
   */
  predicate IsSwitchDirective(input: string) {
    var n := LeadingAmpersands(input);
    1 <= n < |input| && '\n' !in input[n + 1..]
  }

  /** The directive named by the text after the run of '&'. */
  function SwitchOf(input: string): SwitchType
    requires IsSwitchDirective(input)
  {
    var n := LeadingAmpersands(input);
    var name := input[n..];
    if name == "default" then SwitchType.Default
    else if name == "return" then SwitchType.Return
    else if n == 1 then TemporaryAppend(name)
    else Append(name)
  }

  // ---------------------------------------------------------------------------------------
  // Shortcuts: trimmed, lower-cased, split on '+', folded left to right
  // ---------------------------------------------------------------------------------------

  /** The named-key vocabulary (server/src/main.rs:873-898). */
  function NamedKey(t: string): Option<Key> {
    if t == "left" then Some(LeftArrow)
    else if t == "right" then Some(RightArrow)
    else if t == "up" then Some(UpArrow)
    else if t == "down" then Some(DownArrow)
    else if t == "tab" then Some(Tab)
    else if t == "home" then Some(Home)
    else if t == "end" then Some(End)
    else if t == "pageup" then Some(PageUp)
    else if t == "pagedown" then Some(PageDown)
    else if t == "delete" then Some(Delete)
    else if t == "backspace" then Some(Backspace)
    else if t == "return" || t == "enter" then Some(Key.Return)
    else if t == "space" then Some(Space)
    else if t == "escape" || t == "esc" then Some(Escape)
    else if t == "f1" then Some(F1)
    else if t == "f2" then Some(F2)
    else if t == "f3" then Some(F3)
    else if t == "f4" then Some(F4)
    else if t == "f5" then Some(F5)
    else if t == "f6" then Some(F6)
    else if t == "f7" then Some(F7)
    else if t == "f8" then Some(F8)
    else if t == "f9" then Some(F9)
    else if t == "f10" then Some(F10)
    else if t == "f11" then Some(F11)
    else if t == "f12" then Some(F12)
    else None
  }

  /** How the loop reads one '+' component: a modifier name, a key, or nothing (`continue`). */
  datatype Component = CtrlName | ShiftName | AltName | MetaName | CapsLockName | KeyComponent(key: Key) | Skipped

  function Classify(t: string): Component {
    if t == "control" || t == "ctrl" then CtrlName
    else if t == "shift" then ShiftName
    else if t == "alt" then AltName
    else if t == "meta" then MetaName
    else if t == "capslock" then CapsLockName
    else match NamedKey(t)
      case Some(k) => KeyComponent(k)
      case None => if |t| == 1 then KeyComponent(Layout(t[0])) else Skipped
  }

  /** Each '+' component as the loop reads it (classifying is pure, so it can be done first). */
  function ClassifyAll(ts: seq<string>): (cs: seq<Component>)
    ensures |cs| == |ts| && forall i :: 0 <= i < |ts| ==> cs[i] == Classify(ts[i])
  {
    MapSeq(Classify, ts)
  }

  /** `f` applied to every element. */
  function MapSeq<A, B>(f: A -> B, xs: seq<A>): (ys: seq<B>)
    ensures |ys| == |xs| && forall i :: 0 <= i < |xs| ==> ys[i] == f(xs[i])
  {
    seq(|xs|, i requires 0 <= i < |xs| => f(xs[i]))
  }

  lemma MapSeqConcat<A, B>(f: A -> B, a: seq<A>, b: seq<A>)
    ensures MapSeq(f, a + b) == MapSeq(f, a) + MapSeq(f, b)
  {
    var l, r := MapSeq(f, a + b), MapSeq(f, a) + MapSeq(f, b);
    forall i | 0 <= i < |l| ensures l[i] == r[i] {
      if i < |a| {
        assert (a + b)[i] == a[i];
      } else {
        assert (a + b)[i] == b[i - |a|];
      }
    }
  }

  /** The loop's local state: five flags and the key found so far. */
  datatype LoopState = LoopState(ctrl: bool, shift: bool, alt: bool, meta: bool, capsLock: bool, key: Option<Key>)

  const Start := LoopState(false, false, false, false, false, None)

  /** One iteration of the loop over the '+' components. */
  function Absorb(acc: LoopState, c: Component): LoopState {
    match c
    case CtrlName => acc.(ctrl := true)
    case ShiftName => acc.(shift := true)
    case AltName => acc.(alt := true)
    case MetaName => acc.(meta := true)
    case CapsLockName => acc.(capsLock := true)
    case KeyComponent(k) => acc.(key := Some(k))
    case Skipped => acc
  }

  function FoldComponents(acc: LoopState, cs: seq<Component>): LoopState
    decreases |cs|
  {
    if cs == [] then acc else FoldComponents(Absorb(acc, cs[0]), cs[1..])
  }

  /** `Operation::from_str`. */
  function Parse(input: string): Operation {
    // `input.len() > 1` (a byte count in the source) is implied by every match of the pattern.
    if |input| > 1 && IsSwitchDirective(input) then SchemeSwitch(SwitchOf(input))
    else CompileShortcut(ToLower(Trim(input)))
  }

  /** The shortcut half of `from_str`, on the trimmed and lower-cased text. */
  function CompileShortcut(p: string): Operation {
    if p == "" then NoOp
    else if p == "meta" then Shortcut(false, false, false, false, false, Meta)
    else
      var st := FoldComponents(Start, ClassifyAll(Split(p, '+')));
      match st.key
      case Some(k) => Shortcut(st.ctrl, st.shift, st.alt, st.meta, st.capsLock, k)
      case None => NoOp
  }

  // ---------------------------------------------------------------------------------------
  // What the fold means
  // ---------------------------------------------------------------------------------------

  /** The position of the last component that names a key, if any. */
  function LastKeyIndex(cs: seq<Component>): (r: Option<nat>)
    ensures r.Some? ==> r.value < |cs| && cs[r.value].KeyComponent?
    ensures r.Some? ==> forall k :: r.value < k < |cs| ==> !cs[k].KeyComponent?
    ensures r.None? ==> forall k :: 0 <= k < |cs| ==> !cs[k].KeyComponent?
  {
    if cs == [] then None
    else if cs[|cs| - 1].KeyComponent? then Some(|cs| - 1)
    else LastKeyIndex(cs[..|cs| - 1])
  }

  lemma LastKeyIndexIs(cs: seq<Component>, j: nat)
    requires j < |cs| && cs[j].KeyComponent?
    requires forall k :: j < k < |cs| ==> !cs[k].KeyComponent?
    ensures LastKeyIndex(cs) == Some(j)
  {
  }

  lemma LastKeyIndexCons(cs: seq<Component>)
    requires cs != []
    ensures LastKeyIndex(cs) ==
      match LastKeyIndex(cs[1..])
      case Some(j) => Some(j + 1)
      case None => if cs[0].KeyComponent? then Some(0) else None
  {
    match LastKeyIndex(cs[1..])
    case Some(j) =>
      assert cs[1..][j] == cs[j + 1];
      forall k | j + 1 < k < |cs| ensures !cs[k].KeyComponent? {
        assert cs[k] == cs[1..][k - 1];
      }
      LastKeyIndexIs(cs, j + 1);
    case None =>
      forall k | 0 < k < |cs| ensures !cs[k].KeyComponent? {
        assert cs[k] == cs[1..][k - 1];
      }
      if cs[0].KeyComponent? {
        LastKeyIndexIs(cs, 0);
      }
  }

  /** The key the last key-naming component names, or `otherwise` when none does. */
  function LastKey(cs: seq<Component>, otherwise: Option<Key>): Option<Key> {
    match LastKeyIndex(cs)
    case Some(j) => Some(cs[j].key)
    case None => otherwise
  }

  predicate IsModifierName(m: Component) {
    m.CtrlName? || m.ShiftName? || m.AltName? || m.MetaName? || m.CapsLockName?
  }

  /** The flag of the loop state that a modifier name sets. */
  function Flag(st: LoopState, m: Component): bool
    requires IsModifierName(m)
  {
    match m
    case CtrlName => st.ctrl
    case ShiftName => st.shift
    case AltName => st.alt
    case MetaName => st.meta
    case CapsLockName => st.capsLock
  }

  /** A flag ends up set exactly when it was set already or some component names its modifier. */
  lemma {:induction false} FoldFlag(acc: LoopState, cs: seq<Component>, m: Component)
    requires IsModifierName(m)
    decreases |cs|
    ensures Flag(FoldComponents(acc, cs), m) == (Flag(acc, m) || m in cs)
  {
    if cs != [] {
      FoldFlag(Absorb(acc, cs[0]), cs[1..], m);
      assert m in cs <==> cs[0] == m || m in cs[1..];
    }
  }

  /** The key ends up as the one the last key-naming component names. */
  lemma {:induction false} FoldKey(acc: LoopState, cs: seq<Component>)
    decreases |cs|
    ensures FoldComponents(acc, cs).key == LastKey(cs, acc.key)
  {
    if cs != [] {
      FoldKey(Absorb(acc, cs[0]), cs[1..]);
      LastKeyIndexCons(cs);
      match LastKeyIndex(cs[1..])
      case Some(j) => assert cs[1..][j] == cs[j + 1];
      case None =>
    }
  }

  lemma FoldMeaning(acc: LoopState, cs: seq<Component>)
    ensures FoldComponents(acc, cs) ==
      LoopState(acc.ctrl || CtrlName in cs, acc.shift || ShiftName in cs, acc.alt || AltName in cs,
                acc.meta || MetaName in cs, acc.capsLock || CapsLockName in cs, LastKey(cs, acc.key))
  {
    FoldFlag(acc, cs, CtrlName);
    FoldFlag(acc, cs, ShiftName);
    FoldFlag(acc, cs, AltName);
    FoldFlag(acc, cs, MetaName);
    FoldFlag(acc, cs, CapsLockName);
    FoldKey(acc, cs);
  }

  /**
   * Compiling trimmed, lower-cased text: empty text is nothing, "meta" alone is the Meta
   * key; otherwise each modifier flag is set iff some component names that modifier and
   * the key is the one named by the last component that names a key; with no such
   * component the result is nothing.
   */
  lemma CompileShortcutMeaning(p: string)
    ensures var cs := ClassifyAll(Split(p, '+'));
      && (p == "" ==> CompileShortcut(p) == NoOp)
      && (p == "meta" ==> CompileShortcut(p) == Shortcut(false, false, false, false, false, Meta))
      && (p != "" && p != "meta" ==>
            match LastKeyIndex(cs)
            case None => CompileShortcut(p) == NoOp
            case Some(j) =>
              CompileShortcut(p) == Shortcut(CtrlName in cs, ShiftName in cs, AltName in cs,
                                             MetaName in cs, CapsLockName in cs, cs[j].key))
  {
    FoldMeaning(Start, ClassifyAll(Split(p, '+')));
  }

  /** Text that is not a directive is trimmed and lower-cased, then compiled as a shortcut. */
  lemma ParseShortcut(input: string)
    requires !(|input| > 1 && IsSwitchDirective(input))
    ensures var p := ToLower(Trim(input));
      var cs := ClassifyAll(Split(p, '+'));
      && (p == "" ==> Parse(input) == NoOp)
      && (p == "meta" ==> Parse(input) == Shortcut(false, false, false, false, false, Meta))
      && (p != "" && p != "meta" ==>
            match LastKeyIndex(cs)
            case None => Parse(input) == NoOp
            case Some(j) =>
              Parse(input) == Shortcut(CtrlName in cs, ShiftName in cs, AltName in cs,
                                       MetaName in cs, CapsLockName in cs, cs[j].key))
  {
    CompileShortcutMeaning(ToLower(Trim(input)));
  }

  /** Text that is not a directive and is already trimmed and lower-case is compiled as it is. */
  lemma ParseNormalized(input: string)
    requires !(|input| > 1 && IsSwitchDirective(input)) && ToLower(Trim(input)) == input
    ensures Parse(input) == CompileShortcut(input)
  {
  }

  /** A component that reads as a key never names one of the five modifier keys. */
  lemma ComponentKeys(t: string)
    requires Classify(t).KeyComponent?
    ensures Classify(t).key !in {Control, Shift, Alt, CapsLock, Meta}
  {
  }

  /** The parser never produces a bare modifier key, and Meta as a key only with no modifier. */
  lemma ParsedKeys(input: string)
    ensures var op := Parse(input);
      op.Shortcut? ==> op.key !in {Control, Shift, Alt, CapsLock}
    ensures var op := Parse(input);
      op.Shortcut? && op.key == Meta ==> !op.ctrl && !op.shift && !op.alt && !op.meta && !op.capsLock
  {
    if !(|input| > 1 && IsSwitchDirective(input)) {
      var p := ToLower(Trim(input));
      CompileShortcutMeaning(p);
      if p != "" && p != "meta" {
        var ts := Split(p, '+');
        match LastKeyIndex(ClassifyAll(ts))
        case Some(j) => ComponentKeys(ts[j]);
        case None =>
      }
    }
  }

  // ---------------------------------------------------------------------------------------
  // What the switch-directive check means
  // ---------------------------------------------------------------------------------------

  function Ampersands(n: nat): (s: string)
    ensures |s| == n && forall i :: 0 <= i < n ==> s[i] == '&'
  {
    if n == 0 then [] else "&" + Ampersands(n - 1)
  }

  lemma {:induction false} LeadingAmpersandsOf(n: nat, name: string)
    requires name != [] && name[0] != '&'
    ensures LeadingAmpersands(Ampersands(n) + name) == n
  {
    if n > 0 {
      LeadingAmpersandsOf(n - 1, name);
      assert (Ampersands(n) + name)[1..] == Ampersands(n - 1) + name;
    } else {
      assert Ampersands(0) + name == name;
    }
  }

  /**
   * A run of n >= 1 '&' followed by a name that does not start with '&' (and has no line
   * feed after its first character) is a directive: "default" and "return" whatever n is,
   * otherwise a temporary append for one '&' and an append for more.
   */
  lemma SwitchDirective(n: nat, name: string)
    requires n >= 1 && name != [] && name[0] != '&' && '\n' !in name[1..]
    ensures Parse(Ampersands(n) + name) ==
      SchemeSwitch(if name == "default" then SwitchType.Default
                   else if name == "return" then SwitchType.Return
                   else if n == 1 then TemporaryAppend(name)
                   else Append(name))
  {
    var input := Ampersands(n) + name;
    LeadingAmpersandsOf(n, name);
    assert input[n..] == name;
    assert input[n + 1..] == name[1..];
  }

  lemma CompileShortcutIsNoSwitch(p: string)
    ensures !CompileShortcut(p).SchemeSwitch?
  {
  }

  /** Parsing yields a directive exactly when the text matches the directive pattern. */
  lemma ParseIsSwitch(input: string)
    ensures Parse(input).SchemeSwitch? <==> |input| > 1 && IsSwitchDirective(input)
  {
    CompileShortcutIsNoSwitch(ToLower(Trim(input)));
  }

  /** Conversely, every directive is such a run of '&' followed by such a name. */
  lemma SwitchDirectiveShape(input: string)
    requires Parse(input).SchemeSwitch?
    ensures var n := LeadingAmpersands(input);
      && n >= 1 && input == Ampersands(n) + input[n..]
      && input[n..] != [] && input[n] != '&' && '\n' !in input[n + 1..]
  {
    ParseIsSwitch(input);
    var n := LeadingAmpersands(input);
    assert input[..n] == Ampersands(n);
    assert input == input[..n] + input[n..];
  }

  // ---------------------------------------------------------------------------------------
  // Rendering a shortcut back to text, and the round trip
  // ---------------------------------------------------------------------------------------

  /** The component that names a key (the first spelling where the vocabulary has two). */
  function KeyName(k: Key): string
    requires k !in {Control, Shift, Alt, CapsLock}
  {
    match k
    case LeftArrow => "left" case RightArrow => "right" case UpArrow => "up" case DownArrow => "down"
    case Tab => "tab" case Home => "home" case End => "end" case PageUp => "pageup" case PageDown => "pagedown"
    case Delete => "delete" case Backspace => "backspace" case Return => "return" case Space => "space"
    case Escape => "escape"
    case F1 => "f1" case F2 => "f2" case F3 => "f3" case F4 => "f4" case F5 => "f5" case F6 => "f6"
    case F7 => "f7" case F8 => "f8" case F9 => "f9" case F10 => "f10" case F11 => "f11" case F12 => "f12"
    case Meta => "meta"
    case Layout(c) => [c]
  }

  predicate IsUpper(c: char) {
    'A' <= c <= 'Z'
  }

  /** The shortcuts that some text spells. */
  predicate Renderable(op: Operation) {
    && op.Shortcut?
    && op.key !in {Control, Shift, Alt, CapsLock}
    && (op.key == Meta ==> !op.ctrl && !op.shift && !op.alt && !op.meta && !op.capsLock)
    && (op.key.Layout? ==> op.key.c != '+' && !IsWhitespace(op.key.c) && !IsUpper(op.key.c))
  }

  /** `[x]` when `b` holds, otherwise nothing. */
  function Optional<T>(b: bool, x: T): seq<T> {
    if b then [x] else []
  }

  function ModifierComponents(op: Operation): seq<string>
    requires op.Shortcut?
  {
    Optional(op.ctrl, "ctrl") + Optional(op.shift, "shift") + Optional(op.alt, "alt")
    + Optional(op.meta, "meta") + Optional(op.capsLock, "capslock")
  }

  /** The components of a shortcut's text: its modifiers, then its key. */
  function RenderComponents(op: Operation): seq<string>
    requires Renderable(op)
  {
    ModifierComponents(op) + [KeyName(op.key)]
  }

  /** A shortcut written as its modifiers and its key, joined with '+'. */
  function Render(op: Operation): string
    requires Renderable(op)
  {
    Join(RenderComponents(op), '+')
  }

  predicate IsFunctionKey(k: Key) {
    k in {F1, F2, F3, F4, F5, F6, F7, F8, F9, F10, F11, F12}
  }

  predicate IsLowFunctionKey(k: Key) {
    k in {F1, F2, F3, F4, F5, F6}
  }

  predicate IsNavigationKey(k: Key) {
    k in {LeftArrow, RightArrow, UpArrow, DownArrow, Tab, Home, End, PageUp, PageDown}
  }

  lemma LowFunctionKeyParses(k: Key)
    requires IsLowFunctionKey(k)
    ensures Classify(KeyName(k)) == KeyComponent(k)
  {
  }

  lemma HighFunctionKeyParses(k: Key)
    requires IsFunctionKey(k) && !IsLowFunctionKey(k)
    ensures Classify(KeyName(k)) == KeyComponent(k)
  {
  }

  lemma FunctionKeyParses(k: Key)
    requires IsFunctionKey(k)
    ensures Classify(KeyName(k)) == KeyComponent(k)
  {
    if IsLowFunctionKey(k) {
      LowFunctionKeyParses(k);
    } else {
      HighFunctionKeyParses(k);
    }
  }

  lemma NavigationKeyParses(k: Key)
    requires IsNavigationKey(k)
    ensures Classify(KeyName(k)) == KeyComponent(k)
  {
  }

  /** A named key's component reads back as that key. */
  lemma NamedKeyParses(k: Key)
    requires k !in {Control, Shift, Alt, CapsLock, Meta} && !k.Layout?
    ensures Classify(KeyName(k)) == KeyComponent(k)
  {
    if IsFunctionKey(k) {
      FunctionKeyParses(k);
    } else if IsNavigationKey(k) {
      NavigationKeyParses(k);
    }
  }

  /** A key's component reads back as that key. */
  lemma KeyNameParses(k: Key)
    requires k !in {Control, Shift, Alt, CapsLock, Meta}
    ensures Classify(KeyName(k)) == KeyComponent(k)
  {
    if !k.Layout? {
      NamedKeyParses(k);
    }
  }

  lemma {:induction false} JoinShape(parts: seq<string>, sep: char)
    requires |parts| >= 1 && forall i :: 0 <= i < |parts| ==> parts[i] != []
    ensures var s := Join(parts, sep);
      && s != [] && s[0] == parts[0][0] && s[|s| - 1] == parts[|parts| - 1][|parts[|parts| - 1]| - 1]
      && (|parts| > 1 ==> sep in s)
  {
    if |parts| > 1 {
      JoinShape(parts[1..], sep);
      var s := Join(parts, sep);
      assert s == parts[0] + [sep] + Join(parts[1..], sep);
      assert s[|parts[0]|] == sep;
    }
  }

  lemma {:induction false} JoinNoUpper(parts: seq<string>, sep: char)
    requires |parts| >= 1 && !IsUpper(sep)
    requires forall i, j :: 0 <= i < |parts| && 0 <= j < |parts[i]| ==> !IsUpper(parts[i][j])
    ensures forall j :: 0 <= j < |Join(parts, sep)| ==> !IsUpper(Join(parts, sep)[j])
  {
    if |parts| > 1 {
      JoinNoUpper(parts[1..], sep);
      var s := Join(parts, sep);
      var rest := Join(parts[1..], sep);
      assert s == parts[0] + [sep] + rest;
      forall j | 0 <= j < |s| ensures !IsUpper(s[j]) {
        if j < |parts[0]| {
          assert s[j] == parts[0][j];
        } else if j > |parts[0]| {
          assert s[j] == rest[j - |parts[0]| - 1];
        }
      }
    }
  }

  const ModifierSpellings: set<string> := {"ctrl", "shift", "alt", "meta", "capslock"}

  /** A component that survives trimming, lower-casing and splitting on '+' unchanged. */
  predicate CleanPiece(t: string) {
    && t != [] && '+' !in t && !IsWhitespace(t[0]) && !IsWhitespace(t[|t| - 1])
    && forall j :: 0 <= j < |t| ==> !IsUpper(t[j])
  }

  lemma ModifierComponentsSpelled(op: Operation)
    requires op.Shortcut?
    ensures forall i :: 0 <= i < |ModifierComponents(op)| ==> ModifierComponents(op)[i] in ModifierSpellings
    ensures ModifierComponents(op) == [] <==> !op.ctrl && !op.shift && !op.alt && !op.meta && !op.capsLock
  {
  }

  lemma ModifierSpellingsClean()
    ensures forall t :: t in ModifierSpellings ==> CleanPiece(t) && t[0] != '&'
  {
  }

  /** Lower-case letters and digits only. */
  predicate IsWord(t: string) {
    t != [] && forall j :: 0 <= j < |t| ==> 'a' <= t[j] <= 'z' || '0' <= t[j] <= '9'
  }

  lemma WordClean(t: string)
    requires IsWord(t)
    ensures CleanPiece(t) && t[0] != '&'
  {
  }

  lemma NamedKeyIsWord(k: Key)
    requires k !in {Control, Shift, Alt, CapsLock} && !k.Layout?
    ensures IsWord(KeyName(k))
  {
  }

  lemma NamedKeyClean(k: Key)
    requires k !in {Control, Shift, Alt, CapsLock} && !k.Layout?
    ensures CleanPiece(KeyName(k)) && KeyName(k)[0] != '&'
  {
    NamedKeyIsWord(k);
    WordClean(KeyName(k));
  }

  lemma KeyNameClean(k: Key)
    requires k !in {Control, Shift, Alt, CapsLock}
    requires k.Layout? ==> k.c != '+' && !IsWhitespace(k.c) && !IsUpper(k.c)
    ensures CleanPiece(KeyName(k)) && (|KeyName(k)| == 1 || KeyName(k)[0] != '&')
  {
    if !k.Layout? {
      NamedKeyClean(k);
    }
  }

  /** Every component of a rendering is clean; only a one-character key may start with '&'. */
  lemma RenderPieces(op: Operation)
    requires Renderable(op)
    ensures var ts := RenderComponents(op);
      && (forall i :: 0 <= i < |ts| ==> CleanPiece(ts[i]))
      && (|ts| > 1 ==> ts[0][0] != '&')
      && (|ts| == 1 ==> ts[0] == KeyName(op.key) && (|ts[0]| == 1 || ts[0][0] != '&'))
  {
    var mods := ModifierComponents(op);
    var ts := RenderComponents(op);
    ModifierComponentsSpelled(op);
    ModifierSpellingsClean();
    KeyNameClean(op.key);
    forall i | 0 <= i < |ts| ensures CleanPiece(ts[i]) {
      if i < |mods| { assert ts[i] == mods[i]; }
    }
    if |ts| > 1 { assert ts[0] == mods[0]; }
  }

  /** A rendering is not a directive. */
  lemma RenderNotDirective(op: Operation)
    requires Renderable(op)
    ensures var s := Render(op); !(|s| > 1 && IsSwitchDirective(s))
  {
    var ts := RenderComponents(op);
    var s := Render(op);
    RenderPieces(op);
    JoinShape(ts, '+');
    if |ts| > 1 {
      assert LeadingAmpersands(s) == 0;
    } else {
      assert s == ts[0];
    }
  }

  /** A rendering is already trimmed and lower-case. */
  lemma RenderNormalized(op: Operation)
    requires Renderable(op)
    ensures ToLower(Trim(Render(op))) == Render(op)
  {
    var ts := RenderComponents(op);
    var s := Render(op);
    RenderPieces(op);
    JoinShape(ts, '+');
    JoinNoUpper(ts, '+');
    TrimKeepsUnpadded(s);
    ToLowerKeepsLower(s);
  }

  /** A rendering is not a directive, is already trimmed and lower-case, and splits into its components. */
  lemma RenderShape(op: Operation)
    requires Renderable(op)
    ensures var s := Render(op);
      && !(|s| > 1 && IsSwitchDirective(s))
      && ToLower(Trim(s)) == s
      && Split(s, '+') == RenderComponents(op)
  {
    RenderNotDirective(op);
    RenderNormalized(op);
    RenderPieces(op);
    SplitJoin(RenderComponents(op), '+');
  }

  /** The rendering is "meta" exactly for the bare Meta key. */
  lemma RenderMeta(op: Operation)
    requires Renderable(op)
    ensures Render(op) != ""
    ensures Render(op) == "meta" <==> op.key == Meta
  {
    var mods := ModifierComponents(op);
    var ts := mods + [KeyName(op.key)];
    ModifierComponentsSpelled(op);
    if mods == [] {
      assert Render(op) == KeyName(op.key);
      if op.key != Meta {
        KeyNameParses(op.key);
      }
    } else {
      ModifierSpellingsClean();
      KeyNameClean(op.key);
      assert forall i :: 0 <= i < |ts| ==> ts[i] != [] by {
        forall i | 0 <= i < |ts| ensures ts[i] != [] {
          if i < |mods| { assert ts[i] == mods[i]; }
        }
      }
      JoinShape(ts, '+');
      assert '+' !in "meta";
    }
  }

  lemma ClassifyAllConcat(a: seq<string>, b: seq<string>)
    ensures ClassifyAll(a + b) == ClassifyAll(a) + ClassifyAll(b)
  {
    MapSeqConcat(Classify, a, b);
  }

  /** How the modifier components read: one modifier name per set flag, in a fixed order. */
  function ModifierNames(op: Operation): seq<Component>
    requires op.Shortcut?
  {
    Optional(op.ctrl, CtrlName) + Optional(op.shift, ShiftName) + Optional(op.alt, AltName)
    + Optional(op.meta, MetaName) + Optional(op.capsLock, CapsLockName)
  }

  lemma ClassifyOptional(b: bool, t: string)
    ensures ClassifyAll(Optional(b, t)) == Optional(b, Classify(t))
  {
  }

  lemma ModifierSpellingsRead()
    ensures Classify("ctrl") == CtrlName && Classify("shift") == ShiftName && Classify("alt") == AltName
    ensures Classify("meta") == MetaName && Classify("capslock") == CapsLockName
  {
  }

  lemma ModifierComponentsRead(op: Operation)
    requires op.Shortcut?
    ensures ClassifyAll(ModifierComponents(op)) == ModifierNames(op)
  {
    var ct, sh, al, me := Optional(op.ctrl, "ctrl"), Optional(op.shift, "shift"), Optional(op.alt, "alt"), Optional(op.meta, "meta");
    var ca := Optional(op.capsLock, "capslock");
    ClassifyAllConcat(ct + sh + al + me, ca);
    ClassifyAllConcat(ct + sh + al, me);
    ClassifyAllConcat(ct + sh, al);
    ClassifyAllConcat(ct, sh);
    ClassifyOptional(op.ctrl, "ctrl");
    ClassifyOptional(op.shift, "shift");
    ClassifyOptional(op.alt, "alt");
    ClassifyOptional(op.meta, "meta");
    ClassifyOptional(op.capsLock, "capslock");
    ModifierSpellingsRead();
  }

  /** The flag of a shortcut that a modifier name stands for. */
  function OpFlag(op: Operation, m: Component): bool
    requires op.Shortcut? && IsModifierName(m)
  {
    match m
    case CtrlName => op.ctrl
    case ShiftName => op.shift
    case AltName => op.alt
    case MetaName => op.meta
    case CapsLockName => op.capsLock
  }

  lemma InModifierNames(op: Operation, m: Component, k: Key)
    requires op.Shortcut? && IsModifierName(m)
    ensures (m in ModifierNames(op) + [KeyComponent(k)]) == OpFlag(op, m)
  {
    var ct, sh, al, me := Optional(op.ctrl, CtrlName), Optional(op.shift, ShiftName), Optional(op.alt, AltName), Optional(op.meta, MetaName);
    var ca := Optional(op.capsLock, CapsLockName);
    assert m in ct + sh + al + me + ca + [KeyComponent(k)] <==> m in ct || m in sh || m in al || m in me || m in ca;
  }

  lemma CompileEndingInKey(p: string, cs: seq<Component>, k: Key)
    requires p != "" && p != "meta" && ClassifyAll(Split(p, '+')) == cs
    requires cs != [] && cs[|cs| - 1] == KeyComponent(k)
    ensures CompileShortcut(p) == Shortcut(CtrlName in cs, ShiftName in cs, AltName in cs, MetaName in cs, CapsLockName in cs, k)
  {
    LastKeyIndexIs(cs, |cs| - 1);
    CompileShortcutMeaning(p);
  }

  /** Reading the flags off a shortcut's modifier names gives back the shortcut. */
  lemma ShortcutOfNames(op: Operation)
    requires op.Shortcut?
    ensures var cs := ModifierNames(op) + [KeyComponent(op.key)];
      Shortcut(CtrlName in cs, ShiftName in cs, AltName in cs, MetaName in cs, CapsLockName in cs, op.key) == op
  {
    InModifierNames(op, CtrlName, op.key);
    InModifierNames(op, ShiftName, op.key);
    InModifierNames(op, AltName, op.key);
    InModifierNames(op, MetaName, op.key);
    InModifierNames(op, CapsLockName, op.key);
  }

  /** A rendering that is not "meta" compiles back to its shortcut. */
  lemma CompileRender(op: Operation)
    requires Renderable(op) && op.key != Meta
    ensures CompileShortcut(Render(op)) == op
  {
    var cs := ModifierNames(op) + [KeyComponent(op.key)];
    RenderedComponents(op);
    RenderMeta(op);
    CompileEndingInKey(Render(op), cs, op.key);
    ShortcutOfNames(op);
  }

  /** The components of a rendering read as its modifier names followed by its key. */
  lemma RenderedComponents(op: Operation)
    requires Renderable(op) && op.key != Meta
    ensures ClassifyAll(Split(Render(op), '+')) == ModifierNames(op) + [KeyComponent(op.key)]
  {
    RenderShape(op);
    var mods := ModifierComponents(op);
    KeyNameParses(op.key);
    ModifierComponentsRead(op);
    ClassifyAllConcat(mods, [KeyName(op.key)]);
  }

  /** Every shortcut that text can spell is compiled back from its rendering. */
  lemma ParseRender(op: Operation)
    requires Renderable(op)
    ensures Parse(Render(op)) == op
  {
    RenderShape(op);
    RenderMeta(op);
    ParseNormalized(Render(op));
    if op.key != Meta {
      CompileRender(op);
    }
  }

  /** One '&' before a name appends it for one mapping; more append it for good. */
  lemma AppendExamples()
    ensures Parse("&foo") == SchemeSwitch(TemporaryAppend("foo"))
    ensures Parse("&&foo") == SchemeSwitch(Append("foo"))
  {
    SwitchDirective(1, "foo");
    assert Ampersands(1) + "foo" == "&foo";
    SwitchDirective(2, "foo");
    assert Ampersands(2) + "foo" == "&&foo";
  }

  /** "return" and "default" are directives whatever the number of '&'. */
  lemma ReturnDefaultExamples()
    ensures Parse("&return") == SchemeSwitch(SwitchType.Return)
    ensures Parse("&&default") == SchemeSwitch(SwitchType.Default)
  {
    SwitchDirective(1, "return");
    assert Ampersands(1) + "return" == "&return";
    SwitchDirective(2, "default");
    assert Ampersands(2) + "default" == "&&default";
  }

  lemma BlankText(s: string)
    requires s == "" || s == "   "
    ensures !(|s| > 1 && IsSwitchDirective(s)) && ToLower(Trim(s)) == ""
  {
    assert LeadingAmpersands(s) == 0;
    assert Trim(s) == "";
  }

  /** Empty or blank text compiles to nothing. */
  lemma BlankExamples(s: string)
    requires s == "" || s == "   "
    ensures Parse(s) == NoOp
  {
    BlankText(s);
  }

  lemma MetaText(s: string)
    requires s == "meta"
    ensures !(|s| > 1 && IsSwitchDirective(s)) && ToLower(Trim(s)) == s
  {
    assert LeadingAmpersands(s) == 0;
    TrimKeepsUnpadded(s);
    ToLowerKeepsLower(s);
  }

  /** "meta" alone is the Meta key. */
  lemma MetaExample(s: string)
    requires s == "meta"
    ensures Parse(s) == Shortcut(false, false, false, false, false, Meta)
  {
    MetaText(s);
    ParseNormalized(s);
  }

  /** "ctrl+shift+a" holds Control and Shift around the layout key 'a'. */
  lemma ChordExample(s: string)
    requires s == "ctrl+shift+a"
    ensures Parse(s) == Shortcut(true, true, false, false, false, Layout('a'))
  {
    var op := Shortcut(true, true, false, false, false, Layout('a'));
    assert RenderComponents(op) == ["ctrl", "shift", "a"];
    assert Join(["ctrl", "shift", "a"], '+') == s;
    assert Render(op) == s;
    ParseRender(op);
  }

  lemma SpacedText(s: string)
    requires s == "ctrl + a"
    ensures !(|s| > 1 && IsSwitchDirective(s)) && ToLower(Trim(s)) == s
  {
    assert LeadingAmpersands(s) == 0;
    TrimKeepsUnpadded(s);
    ToLowerKeepsLower(s);
  }

  lemma SpacedSplit(s: string)
    requires s == "ctrl + a"
    ensures Split(s, '+') == ["ctrl ", " a"]
  {
    var ts := ["ctrl ", " a"];
    assert Join(ts, '+') == s;
    SplitJoin(ts, '+');
  }

  lemma SpacedComponentsSkipped(t: string)
    requires t == "ctrl " || t == " a"
    ensures Classify(t) == Skipped
  {
  }

  /** Components are not trimmed one by one: spaces around '+' hide both of them. */
  lemma SpacedShortcutIsNothing(s: string)
    requires s == "ctrl + a"
    ensures Parse(s) == NoOp
  {
    var ts := ["ctrl ", " a"];
    SpacedText(s);
    ParseNormalized(s);
    SpacedSplit(s);
    SpacedComponentsSkipped(ts[0]);
    SpacedComponentsSkipped(ts[1]);
    assert ClassifyAll(ts) == [Skipped, Skipped];
    CompileShortcutMeaning(s);
  }
}
