/**
 `freqMap` as the code builds it: a plain object literal `{}`, which inherits
 the properties of `Object.prototype` (section 20.1.3 of the ECMAScript 2023
 language specification). A cell whose text names one of them reads an
 inherited function instead of `undefined`, so `(freqMap[cat] || 0) + 1`
 concatenates text; and `__proto__` is an accessor whose setter ignores a
 primitive, so that category is never stored. Away from those names the object
 holds exactly the frequency table of `FrequencyTable`.
 */
module ObjectCounting {
  import opened Cells
  import FrequencyTable

  /** The property names every plain object inherits. */
  const PrototypeNames: set<string> := {
    "constructor", "hasOwnProperty", "isPrototypeOf", "propertyIsEnumerable",
    "toLocaleString", "toString", "valueOf", "__proto__",
    "__defineGetter__", "__defineSetter__", "__lookupGetter__", "__lookupSetter__"
  }

  /** A property value `freqMap` can come to hold: a number or, after concatenation, a string. */
  datatype Value = Num(n: nat) | Text(s: string)

  datatype Property = Property(name: string, value: Value)

  /** The object's own properties in insertion order. */
  type PlainObject = seq<Property>

  /** The value of an own property, if there is one. */
  function Own(o: PlainObject, name: string): Option<Value>
  {
    if o == [] then None
    else if o[0].name == name then Some(o[0].value)
    else Own(o[1..], name)
  }

  /**
   The function an inherited name reads: `constructor` is the `Object`
   function itself; every other name is the method of that name.
   */
  function InheritedFunctionName(name: string): string
  {
    if name == "constructor" then "Object" else name
  }

  /**
   The text a built-in function converts to. The exact layout is
   engine-specific; this is V8's one-line form (other engines put line breaks
   inside the braces).
   */
  function NativeSource(name: string): string
  {
    "function " + InheritedFunctionName(name) + "() { [native code] }"
  }

  /**
   The value of `(freqMap[cat] || 0) + 1`: an own count goes up by one, an
   absent ordinary name starts at 1, and an inherited name reads an object
   whose text gets "1" appended.
   */
  function Incremented(o: PlainObject, cat: string): (v: Value)
    ensures Own(o, cat).Some? && Own(o, cat).value.Num? ==> v == Num(Own(o, cat).value.n + 1)
    ensures Own(o, cat).Some? && Own(o, cat).value.Text? && Own(o, cat).value.s != "" ==>
      v == Text(Own(o, cat).value.s + "1")
    ensures Own(o, cat).None? && cat !in PrototypeNames ==> v == Num(1)
    ensures Own(o, cat).None? && cat in PrototypeNames && cat != "__proto__" ==>
      v == Text(NativeSource(cat) + "1")
    ensures Own(o, cat).None? && cat == "__proto__" ==> v == Text("[object Object]1")
  {
    match Own(o, cat)
    case Some(Num(n)) => Num(n + 1)
    case Some(Text(s)) => if s == "" then Num(1) else Text(s + "1")
    case None =>
      if cat == "__proto__" then Text("[object Object]1")
      else if cat in PrototypeNames then Text(NativeSource(cat) + "1")
      else Num(1)
  }

  /** `freqMap[cat] = v`; assigning a primitive through `__proto__` changes nothing. */
  function Assign(o: PlainObject, cat: string, v: Value): (r: PlainObject)
    ensures |r| <= |o| + 1
    ensures cat != "__proto__" ==> Own(r, cat) == Some(v)
    ensures forall k :: k != cat || k == "__proto__" ==> Own(r, k) == Own(o, k)
  {
    if cat == "__proto__" then o
    else if o == [] then [Property(cat, v)]
    else if o[0].name == cat then [Property(cat, v)] + o[1..]
    else [o[0]] + Assign(o[1..], cat, v)
  }

  /**
   One step of the counting loop as written: the cell's own property becomes
   the incremented value (except through `__proto__`), and nothing else changes.
   */
  function BumpAsWritten(o: PlainObject, cat: string): (r: PlainObject)
    ensures |r| <= |o| + 1
    ensures cat != "__proto__" ==> Own(r, cat) == Some(Incremented(o, cat))
    ensures forall k :: k != cat || k == "__proto__" ==> Own(r, k) == Own(o, k)
  {
    Assign(o, cat, Incremented(o, cat))
  }

  /** The counting loop as written, over the cells in row order. */
  function TallyAsWritten(cells: seq<string>): (o: PlainObject)
    ensures |o| <= |cells|
    ensures Own(o, "__proto__").None?
  {
    if cells == [] then []
    else BumpAsWritten(TallyAsWritten(cells[..|cells| - 1]), cells[|cells| - 1])
  }

  /** A frequency table seen as an object with numeric properties. */
  function AsObject(t: FrequencyTable.Table): (o: PlainObject)
    ensures |o| == |t|
    ensures forall i :: 0 <= i < |t| ==> o[i] == Property(t[i].category, Num(t[i].count))
  {
    if t == [] then [] else [Property(t[0].category, Num(t[0].count))] + AsObject(t[1..])
  }

  /** Away from inherited names one step as written is one step of the intended count. */
  lemma {:induction false} BumpAgrees(t: FrequencyTable.Table, cat: string)
    requires cat !in PrototypeNames
    ensures BumpAsWritten(AsObject(t), cat) == AsObject(FrequencyTable.Bump(t, cat))
  {
    if t != [] && t[0].category != cat {
      var o := AsObject(t);
      assert o[1..] == AsObject(t[1..]);
      assert Own(o, cat) == Own(AsObject(t[1..]), cat);
      BumpAgrees(t[1..], cat);
    } else if t != [] {
      var o := AsObject(t);
      assert o[1..] == AsObject(t[1..]);
    }
  }

  /** When no cell names an inherited property the object holds exactly the frequency table. */
  lemma {:induction false} TallyAgrees(cells: seq<string>)
    requires forall i :: 0 <= i < |cells| ==> cells[i] !in PrototypeNames
    ensures TallyAsWritten(cells) == AsObject(FrequencyTable.Tally(cells))
  {
    if cells != [] {
      var init := cells[..|cells| - 1];
      TallyAgrees(init);
      BumpAgrees(FrequencyTable.Tally(init), cells[|cells| - 1]);
    }
  }

  /** A single "toString" cell is counted as text rather than as 1. */
  lemma ToStringIsMiscounted()
    ensures TallyAsWritten(["toString"])
      == [Property("toString", Text("function toString() { [native code] }1"))]
    ensures FrequencyTable.Tally(["toString"]) == [FrequencyTable.Entry("toString", 1)]
  {
    assert ["toString"][..0] == [];
    assert "toString" in PrototypeNames && "toString" != "__proto__";
    assert Incremented([], "toString") == Text(NativeSource("toString") + "1");
    assert NativeSource("toString") + "1" == "function toString() { [native code] }1";
  }

  /** A "constructor" cell reads the inherited `Object` function, so its count is that function's text. */
  lemma ConstructorReadsObject()
    ensures TallyAsWritten(["constructor"])
      == [Property("constructor", Text("function Object() { [native code] }1"))]
  {
    assert ["constructor"][..0] == [];
    assert "constructor" in PrototypeNames && "constructor" != "__proto__";
    assert Incremented([], "constructor") == Text(NativeSource("constructor") + "1");
    assert NativeSource("constructor") + "1" == "function Object() { [native code] }1";
  }

  /** A "__proto__" cell vanishes: two rows, yet one count of one. */
  lemma ProtoIsDropped()
    ensures TallyAsWritten(["__proto__", "a"]) == [Property("a", Num(1))]
    ensures FrequencyTable.Total(FrequencyTable.Tally(["__proto__", "a"])) == 2
  {
    assert ["__proto__", "a"][..1] == ["__proto__"];
    assert ["__proto__"][..0] == [];
  }
}
