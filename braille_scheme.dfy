/**
 * Braille schemes: a stack of mapping layers over a scheme's named mappings, and the
 * manager that routes to the first scheme (`BrailleScheme`, `BrailleSchemeManager`,
 * server/src/main.rs:356-512, 612-624).
 */
module BrailleSchemes {
  import opened Wrappers
  import opened Text
  import opened Operations
  import opened BrailleMappings

  /** `BrailleMappingStackLayer`: a mapping and whether one lookup consumes it. */
  datatype Layer = Layer(mapping: BrailleMapping, temporary: bool)

  const DefaultMappingName := "default"

  /** A scheme's mappings: every one a full table, with a "default" among them. */
  predicate ValidMappings(mappings: map<string, BrailleMapping>) {
    && DefaultMappingName in mappings
    && forall n :: n in mappings ==> mappings[n].Valid()
  }

  /**
   * The stack invariant: never empty, the bottom layer is the non-temporary default
   * mapping, and every layer is one of the scheme's mappings.
   */
  predicate ValidStack(stack: seq<Layer>, mappings: map<string, BrailleMapping>) {
    && ValidMappings(mappings)
    && |stack| >= 1
    && stack[0] == Layer(mappings[DefaultMappingName], false)
    && forall i :: 0 <= i < |stack| ==> stack[i].mapping in mappings.Values
  }

  function NotFound(name: string): string {
    "Mapping " + name + " not found"
  }

  // ---------------------------------------------------------------------------------------
  // The stack operations on values
  // ---------------------------------------------------------------------------------------

  /** The stack after `switch_mapping`, and its result. */
  function Switched(stack: seq<Layer>, mappings: map<string, BrailleMapping>, switchType: SwitchType): (seq<Layer>, Outcome<string>)
    requires |stack| >= 1
  {
    match switchType
    case Append(name) =>
      if name in mappings then (stack + [Layer(mappings[name], false)], Pass) else (stack, Fail(NotFound(name)))
    case TemporaryAppend(name) =>
      if name in mappings then (stack + [Layer(mappings[name], true)], Pass) else (stack, Fail(NotFound(name)))
    case Return =>
      (if |stack| == 1 then stack else stack[..|stack| - 1], Pass)
    case Default =>
      (stack[..1], Pass)
  }

  /** The top layer's entry for a combination. */
  function Lookup(stack: seq<Layer>, combination: nat): Option<Operation>
    requires |stack| >= 1 && stack[|stack| - 1].mapping.Valid() && combination < TableSize
  {
    stack[|stack| - 1].mapping.Get(combination)
  }

  /** The stack after a lookup: a temporary top layer is consumed, hit or miss. */
  function Consumed(stack: seq<Layer>): seq<Layer>
    requires |stack| >= 1
  {
    if stack[|stack| - 1].temporary then stack[..|stack| - 1] else stack
  }

  // ---------------------------------------------------------------------------------------
  // What switching and translating promise
  // ---------------------------------------------------------------------------------------

  /** Every switch keeps the stack invariant. */
  lemma SwitchKeepsValid(stack: seq<Layer>, mappings: map<string, BrailleMapping>, switchType: SwitchType)
    requires ValidStack(stack, mappings)
    ensures ValidStack(Switched(stack, mappings, switchType).0, mappings)
  {
    var s := Switched(stack, mappings, switchType).0;
    if switchType.Append? || switchType.TemporaryAppend? {
      if switchType.name in mappings {
        assert forall i :: 0 <= i < |stack| ==> s[i] == stack[i];
      }
    }
  }

  /**
   * Appending a known mapping pushes one layer on top of the unchanged stack; an unknown
   * name is an error and changes nothing.
   */
  lemma SwitchAppend(stack: seq<Layer>, mappings: map<string, BrailleMapping>, name: string, temporary: bool)
    requires |stack| >= 1
    ensures var (s, r) := Switched(stack, mappings, if temporary then TemporaryAppend(name) else Append(name));
      && (name in mappings ==> r == Pass && |s| == |stack| + 1 && s[..|stack|] == stack && s[|stack|] == Layer(mappings[name], temporary))
      && (name !in mappings ==> r == Fail(NotFound(name)) && s == stack)
  {
    var (s, r) := Switched(stack, mappings, if temporary then TemporaryAppend(name) else Append(name));
    if name in mappings {
      assert s[..|stack|] == stack;
    }
  }

  /** Return pops one layer, but never the last one. */
  lemma SwitchReturn(stack: seq<Layer>, mappings: map<string, BrailleMapping>)
    requires ValidStack(stack, mappings)
    ensures var s := Switched(stack, mappings, SwitchType.Return).0;
      && |s| == (if |stack| == 1 then 1 else |stack| - 1)
      && s == stack[..|s|]
      && s[0] == Layer(mappings[DefaultMappingName], false)
  {
  }

  /** Default pops down to exactly the base layer. */
  lemma SwitchDefault(stack: seq<Layer>, mappings: map<string, BrailleMapping>)
    requires ValidStack(stack, mappings)
    ensures Switched(stack, mappings, SwitchType.Default).0 == [Layer(mappings[DefaultMappingName], false)]
  {
  }

  /** A lookup never consumes the base layer, so the invariant survives it. */
  lemma ConsumedKeepsValid(stack: seq<Layer>, mappings: map<string, BrailleMapping>)
    requires ValidStack(stack, mappings)
    ensures ValidStack(Consumed(stack), mappings)
    ensures |Consumed(stack)| == (if stack[|stack| - 1].temporary then |stack| - 1 else |stack|)
  {
  }

  /** Every layer of a valid stack is a full table. */
  lemma LayersValid(stack: seq<Layer>, mappings: map<string, BrailleMapping>)
    requires ValidStack(stack, mappings)
    ensures forall i :: 0 <= i < |stack| ==> stack[i].mapping.Valid()
  {
    forall i | 0 <= i < |stack| ensures stack[i].mapping.Valid() {
      var n :| n in mappings && mappings[n] == stack[i].mapping;
    }
  }

  /**
   * A temporary switch lasts for one combination: the lookup uses the pushed mapping and
   * the stack is back to what it was.
   */
  lemma TemporaryLastsOneLookup(stack: seq<Layer>, mappings: map<string, BrailleMapping>, name: string, combination: nat)
    requires ValidStack(stack, mappings) && name in mappings && combination < TableSize
    ensures var s := Switched(stack, mappings, TemporaryAppend(name)).0;
      && Lookup(s, combination) == mappings[name].Get(combination)
      && Consumed(s) == stack
  {
    var s := Switched(stack, mappings, TemporaryAppend(name)).0;
    assert s[..|s| - 1] == stack;
  }

  // ---------------------------------------------------------------------------------------
  // The scheme
  // ---------------------------------------------------------------------------------------

  /** `BrailleScheme`: a name, its mappings, and the stack of active layers. */
  class BrailleScheme {
    var name: string
    var mappingStack: seq<Layer>
    var mappings: map<string, BrailleMapping>

    ghost predicate Valid()
      reads this
    {
      ValidStack(mappingStack, mappings)
    }

    /** A scheme over already loaded mappings, with the default mapping as the only layer. */
    constructor (name: string, mappings: map<string, BrailleMapping>)
      requires ValidMappings(mappings)
      ensures Valid()
      ensures this.name == name && this.mappings == mappings
      ensures mappingStack == [Layer(mappings[DefaultMappingName], false)]
    {
      this.name := name;
      this.mappings := mappings;
      mappingStack := [Layer(mappings[DefaultMappingName], false)];
      new;
      assert mappings[DefaultMappingName] in mappings.Values;
    }

    /** `BrailleScheme::switch_mapping`. */
    method SwitchMapping(switchType: SwitchType) returns (result: Outcome<string>)
      requires Valid()
      modifies this
      ensures Valid() && name == old(name) && mappings == old(mappings)
      ensures (mappingStack, result) == Switched(old(mappingStack), mappings, switchType)
    {
      SwitchKeepsValid(mappingStack, mappings, switchType);
      match switchType {
        case Append(n) =>
          if n in mappings {
            mappingStack := mappingStack + [Layer(mappings[n], false)];
          } else {
            return Fail(NotFound(n));
          }
        case TemporaryAppend(n) =>
          if n in mappings {
            mappingStack := mappingStack + [Layer(mappings[n], true)];
          } else {
            return Fail(NotFound(n));
          }
        case Return =>
          if |mappingStack| == 1 {
            return Pass;
          }
          mappingStack := mappingStack[..|mappingStack| - 1];
        case Default =>
          while |mappingStack| > 1
            invariant 1 <= |mappingStack| <= |old(mappingStack)|
            invariant mappingStack == old(mappingStack)[..|mappingStack|]
            invariant name == old(name) && mappings == old(mappings)
            decreases |mappingStack|
          {
            mappingStack := mappingStack[..|mappingStack| - 1];
          }
      }
      result := Pass;
    }

    /** `BrailleScheme::translate_combination`: the top layer's entry, consuming a temporary layer. */
    method TranslateCombination(combination: nat) returns (operation: Option<Operation>)
      requires Valid() && combination < TableSize
      modifies this
      ensures Valid() && name == old(name) && mappings == old(mappings)
      ensures operation == Lookup(old(mappingStack), combination)
      ensures mappingStack == Consumed(old(mappingStack))
    {
      LayersValid(mappingStack, mappings);
      ConsumedKeepsValid(mappingStack, mappings);
      if |mappingStack| == 0 {
        // The source reads index 0 of an empty stack here; the invariant rules it out.
        assert false;
      }
      var layer := mappingStack[|mappingStack| - 1];
      operation := layer.mapping.Get(combination);
      if layer.temporary {
        mappingStack := mappingStack[..|mappingStack| - 1];
      }
    }

    /** `BrailleScheme::current_mapping_name`: the name of the top layer's mapping. */
    function CurrentMappingName(): (r: string)
      requires Valid()
      reads this
      ensures exists m :: m in mappings.Values && m.name == r
      ensures |mappingStack| == 1 ==> r == mappings[DefaultMappingName].name
    {
      mappingStack[|mappingStack| - 1].mapping.name
    }
  }

  /** The message for a scheme without a default mapping. */
  function NoDefault(name: string): string {
    "Braille scheme " + name + " doesn't have a default scheme"
  }

  /**
   * `BrailleScheme::from_directory` once the files are read: `files` maps each `.bsc` file
   * stem to its text; every script is loaded and the default mapping is the only layer.
   */
  method SchemeFromFiles(name: string, files: map<string, string>) returns (r: Result<BrailleScheme, string>)
    ensures DefaultMappingName !in files <==> r.Failure?
    ensures r.Failure? ==> r.error == NoDefault(name)
    ensures r.Success? ==>
      && fresh(r.value) && r.value.Valid() && r.value.name == name
      && r.value.mappings.Keys == files.Keys
      && |r.value.mappingStack| == 1
      && forall n, c :: n in files && 0 <= c < TableSize ==>
           r.value.mappings[n].name == n && r.value.mappings[n].Get(c) == LastBinding(LineBindings(Lines(files[n])), c)
  {
    if DefaultMappingName !in files {
      return Failure(NoDefault(name));
    }
    var mappings: map<string, BrailleMapping> := map[];
    var pending := files.Keys;
    while pending != {}
      invariant pending <= files.Keys
      invariant mappings.Keys == files.Keys - pending
      invariant forall n :: n in mappings ==> mappings[n].Valid() && mappings[n].name == n
      invariant forall n, c :: n in mappings && 0 <= c < TableSize ==>
        mappings[n].Get(c) == LastBinding(LineBindings(Lines(files[n])), c)
      decreases pending
    {
      var key :| key in pending;
      var mapping := FromScript(key, files[key]);
      mappings := mappings[key := mapping];
      pending := pending - {key};
    }
    var scheme := new BrailleScheme(name, mappings);
    return Success(scheme);
  }

  // ---------------------------------------------------------------------------------------
  // The manager
  // ---------------------------------------------------------------------------------------

  /** `BrailleSchemeManager`: the loaded schemes; only the first one is ever used. */
  class BrailleSchemeManager {
    var schemes: seq<BrailleScheme>

    ghost predicate Valid()
      reads this, if |schemes| > 0 then {schemes[0]} else {}
    {
      |schemes| > 0 ==> schemes[0].Valid()
    }

    /** `BrailleSchemeManager::new`: no schemes. */
    constructor Empty()
      ensures Valid() && schemes == []
    {
      schemes := [];
    }

    /** A manager over already loaded schemes. */
    constructor (schemes: seq<BrailleScheme>)
      requires |schemes| > 0 ==> schemes[0].Valid()
      ensures Valid() && this.schemes == schemes
    {
      this.schemes := schemes;
    }

    /** `BrailleSchemeManager::switch_mapping`: an error without schemes, else the first scheme switches. */
    method SwitchMapping(switchType: SwitchType) returns (result: Outcome<string>)
      requires Valid()
      modifies if |schemes| > 0 then {schemes[0]} else {}
      ensures Valid() && schemes == old(schemes)
      ensures |schemes| == 0 ==> result == Fail(NoSchemes)
      ensures |schemes| > 0 ==>
        && schemes[0].name == old(schemes[0].name) && schemes[0].mappings == old(schemes[0].mappings)
        && (schemes[0].mappingStack, result) == Switched(old(schemes[0].mappingStack), schemes[0].mappings, switchType)
    {
      if |schemes| == 0 {
        return Fail(NoSchemes);
      }
      result := schemes[0].SwitchMapping(switchType);
    }

    /** `BrailleSchemeManager::translate_combination`: nothing without schemes. */
    method TranslateCombination(combination: nat) returns (operation: Option<Operation>)
      requires Valid() && (|schemes| > 0 ==> combination < TableSize)
      modifies if |schemes| > 0 then {schemes[0]} else {}
      ensures Valid() && schemes == old(schemes)
      ensures |schemes| == 0 ==> operation == None
      ensures |schemes| > 0 ==>
        && schemes[0].name == old(schemes[0].name) && schemes[0].mappings == old(schemes[0].mappings)
        && operation == Lookup(old(schemes[0].mappingStack), combination)
        && schemes[0].mappingStack == Consumed(old(schemes[0].mappingStack))
    {
      if |schemes| == 0 {
        return None;
      }
      operation := schemes[0].TranslateCombination(combination);
    }

    /** `BrailleSchemeManager::current_mapping_name`: empty without schemes. */
    function CurrentMappingName(): (r: string)
      requires Valid()
      reads this, if |schemes| > 0 then {schemes[0]} else {}
      ensures |schemes| == 0 ==> r == ""
      ensures |schemes| > 0 ==> r == schemes[0].mappingStack[|schemes[0].mappingStack| - 1].mapping.name
    {
      if |schemes| == 0 then "" else schemes[0].CurrentMappingName()
    }
  }

  const NoSchemes := "no braille schemes"
}
