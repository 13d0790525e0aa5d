/** The indented, recursive rendering of a JavaScript value for the console:
    arrays as `-` lines, objects as `key:` lines, nested values one level
    (two spaces) deeper, function values omitted, and a Browserify error cut
    down to its name and message. Colours are not modelled: every chalk is
    the identity. */
module PrettyObject {
  import opened Wrappers
  import opened Strings

  /** A JavaScript value as the renderer tells them apart. `Obj` lists the
      enumerable keys in iteration order; `browserifyError` holds the message
      when the object is an `Error` whose stack, message, name and `stream`
      are all set. `Num` covers the integral numbers. */
  datatype JsValue =
    | Undefined
    | Null
    | Str(s: string)
    | Num(n: int)
    | Bool(b: bool)
    | Func
    | Arr(elements: seq<JsValue>)
    | Obj(fields: seq<Field>, browserifyError: Option<string>)
    | Other

  datatype Field = Field(key: string, value: JsValue)

  /** `isObject`: neither null nor undefined, and of type `object`, which
      takes in arrays but not functions. */
  predicate IsObject(v: JsValue) {
    v.Arr? || v.Obj?
  }

  /** `isFunction`. */
  predicate IsFunction(v: JsValue) {
    v.Func?
  }

  /** `Object.keys(v).length` for an object or array: every element or key,
      function-valued ones included. */
  function KeyCount(v: JsValue): nat
    requires IsObject(v)
  {
    if v.Arr? then |v.elements| else |v.fields|
  }

  /** `getPropertySpacer`: nothing before an empty object or array, a line
      break before a non-empty one, a space before anything else. */
  function PropertySpacer(v: JsValue): (r: string)
    ensures r == "" <==> IsObject(v) && KeyCount(v) == 0
    ensures r == "\n" <==> IsObject(v) && KeyCount(v) > 0
    ensures r == " " <==> !IsObject(v)
  {
    if IsObject(v) then (if KeyCount(v) == 0 then "" else "\n") else " "
  }

  /** The indentation of a nesting level: two spaces per level. */
  function Indent(level: nat): (r: string)
    ensures |r| == 2 * level
    ensures forall i :: 0 <= i < |r| ==> r[i] == ' '
  {
    seq(2 * level, _ => ' ')
  }

  /** `getLevelSpacer`: appends two spaces per level. */
  method GetLevelSpacer(level: nat) returns (s: string)
    ensures s == Indent(level)
  {
    s := "";
    var i := 0;
    while i < level
      invariant 0 <= i <= level
      invariant s == Indent(i)
    {
      s := s + "  ";
      i := i + 1;
    }
  }

  /** The decimal form of an integral number, as `toString` gives it. */
  function NumberString(n: int): (r: string)
  {
    if n < 0 then "-" + NatToString(-n) else NatToString(n)
  }

  /** A number renders so that it reads back: an optional minus sign and the
      digits of its magnitude. */
  lemma NumberStringReadsBack(n: int)
    ensures var r := NumberString(n);
            && (n < 0 <==> |r| > 0 && r[0] == '-')
            && var digits := if n < 0 then r[1..] else r;
               (forall i :: 0 <= i < |digits| ==> IsDigit(digits[i]))
               && ParseNat(digits) == (if n < 0 then -n else n)
  {
    var m: nat := if n < 0 then -n else n;
    ParseNatToString(m);
    NatToStringWellFormed(m);
    if n < 0 {
      assert ("-" + NatToString(m))[1..] == NatToString(m);
    } else {
      assert IsDigit(NatToString(m)[0]);
    }
  }

  /** The object a Browserify error is rendered as. */
  function BrowserifyErrorObject(message: string): JsValue {
    Obj([Field("name", Str("Browserify error")), Field("message", Str(message))], None)
  }

  /** A measure for the recursion: every value counts one, a Browserify
      error four more than its replacement object needs. */
  function Size(v: JsValue): (r: nat)
    ensures r >= 1
    decreases v
  {
    match v
    case Arr(elements) => 1 + SizeSeq(elements)
    case Obj(fields, browserifyError) => 1 + SizeFields(fields) + (if browserifyError.Some? then 4 else 0)
    case _ => 1
  }

  function SizeSeq(elements: seq<JsValue>): nat
    decreases elements
  {
    if elements == [] then 0
    else SizeSeq(elements[..|elements| - 1]) + Size(elements[|elements| - 1])
  }

  function SizeFields(fields: seq<Field>): nat
    decreases fields
  {
    if fields == [] then 0
    else SizeFields(fields[..|fields| - 1]) + Size(fields[|fields| - 1].value)
  }

  lemma {:induction false} SizeSeqElement(elements: seq<JsValue>, i: nat)
    requires i < |elements|
    ensures Size(elements[i]) <= SizeSeq(elements)
    decreases |elements|
  {
    var n := |elements| - 1;
    if i < n {
      assert elements[..n][i] == elements[i];
      SizeSeqElement(elements[..n], i);
    }
  }

  lemma {:induction false} SizeFieldsElement(fields: seq<Field>, i: nat)
    requires i < |fields|
    ensures Size(fields[i].value) <= SizeFields(fields)
    decreases |fields|
  {
    var n := |fields| - 1;
    if i < n {
      assert fields[..n][i] == fields[i];
      SizeFieldsElement(fields[..n], i);
    }
  }

  lemma BrowserifyErrorObjectSize(message: string)
    ensures Size(BrowserifyErrorObject(message)) == 3
  {
    var fs := BrowserifyErrorObject(message).fields;
    assert fs[..1][..0] == [];
    assert SizeFields(fs[..1]) == SizeFields([]) + Size(fs[0].value) == 1;
    assert fs[..2 - 1] == fs[..1];
    assert SizeFields(fs) == SizeFields(fs[..1]) + Size(fs[1].value) == 2;
  }

  /** What `render(v, level)` returns. */
  function Rendered(v: JsValue, level: nat): string
    decreases Size(v), 1
  {
    match v
    case Undefined => "undefined"
    case Null => "null"
    case Str(s) => s
    case Arr(elements) => Join(ArrayLines(elements, level), "\n")
    case Obj(fields, browserifyError) =>
      if browserifyError.Some? then
        BrowserifyErrorObjectSize(browserifyError.value);
        Rendered(BrowserifyErrorObject(browserifyError.value), level)
      else Join(FieldLines(fields, level), "\n")
    case Num(n) => NumberString(n)
    case Bool(b) => if b then "true" else "false"
    case Func => ""
    case Other => ""
  }

  /** The line of an array element: indentation, `-`, the spacer, and the
      element one level deeper. */
  function ElementLine(e: JsValue, level: nat): string
    decreases Size(e), 2
  {
    Indent(level) + "-" + PropertySpacer(e) + Rendered(e, level + 1)
  }

  /** The line of an object field: indentation, the key and `:`, the
      spacer, and the value one level deeper. */
  function FieldLine(f: Field, level: nat): string
    decreases Size(f.value), 2
  {
    Indent(level) + f.key + ":" + PropertySpacer(f.value) + Rendered(f.value, level + 1)
  }

  /** The lines of an array: one per element that is not a function. */
  function ArrayLines(elements: seq<JsValue>, level: nat): seq<string>
    decreases SizeSeq(elements), 3
  {
    if elements == [] then []
    else
      var n := |elements| - 1;
      ArrayLines(elements[..n], level)
      + (if IsFunction(elements[n]) then [] else [ElementLine(elements[n], level)])
  }

  /** The lines of an object: one per field whose value is not a function. */
  function FieldLines(fields: seq<Field>, level: nat): seq<string>
    decreases SizeFields(fields), 3
  {
    if fields == [] then []
    else
      var n := |fields| - 1;
      FieldLines(fields[..n], level)
      + (if IsFunction(fields[n].value) then [] else [FieldLine(fields[n], level)])
  }

  /** The elements that are not functions, in order. */
  function NonFunctions(elements: seq<JsValue>): (r: seq<JsValue>)
    ensures forall i :: 0 <= i < |r| ==> !IsFunction(r[i])
    ensures |r| <= |elements|
    decreases |elements|
  {
    if elements == [] then []
    else
      var n := |elements| - 1;
      NonFunctions(elements[..n]) + (if IsFunction(elements[n]) then [] else [elements[n]])
  }

  /** The fields whose value is not a function, in order. */
  function NonFunctionFields(fields: seq<Field>): (r: seq<Field>)
    ensures forall i :: 0 <= i < |r| ==> !IsFunction(r[i].value)
    ensures |r| <= |fields|
    decreases |fields|
  {
    if fields == [] then []
    else
      var n := |fields| - 1;
      NonFunctionFields(fields[..n]) + (if IsFunction(fields[n].value) then [] else [fields[n]])
  }

  /** An array renders as the line of each non-function element, in order:
      function elements are omitted and nothing else is. */
  lemma {:induction false} ArrayLinesAreElementLines(elements: seq<JsValue>, level: nat)
    ensures var kept := NonFunctions(elements);
            ArrayLines(elements, level) == seq(|kept|, i requires 0 <= i < |kept| => ElementLine(kept[i], level))
    decreases |elements|
  {
    if elements != [] {
      var n := |elements| - 1;
      ArrayLinesAreElementLines(elements[..n], level);
    }
  }

  /** An object renders as the line of each non-function field, in order. */
  lemma {:induction false} FieldLinesAreFieldLines(fields: seq<Field>, level: nat)
    ensures var kept := NonFunctionFields(fields);
            FieldLines(fields, level) == seq(|kept|, i requires 0 <= i < |kept| => FieldLine(kept[i], level))
    decreases |fields|
  {
    if fields != [] {
      var n := |fields| - 1;
      FieldLinesAreFieldLines(fields[..n], level);
    }
  }

  /** An array of nothing but functions, the empty array included, renders
      as the empty string. */
  lemma {:induction false} OnlyFunctionsRenderEmpty(elements: seq<JsValue>, level: nat)
    requires forall i :: 0 <= i < |elements| ==> IsFunction(elements[i])
    ensures Rendered(Arr(elements), level) == ""
  {
    ArrayLinesAreElementLines(elements, level);
    NoneKept(elements);
  }

  lemma {:induction false} NoneKept(elements: seq<JsValue>)
    requires forall i :: 0 <= i < |elements| ==> IsFunction(elements[i])
    ensures NonFunctions(elements) == []
    decreases |elements|
  {
    if elements != [] {
      NoneKept(elements[..|elements| - 1]);
    }
  }

  /** A Browserify error renders, at its own level, as its name line and
      its message line. */
  lemma BrowserifyErrorRendering(fields: seq<Field>, message: string, level: nat)
    ensures Rendered(Obj(fields, Some(message)), level)
            == (Indent(level) + "name:" + " " + "Browserify error") + "\n"
               + (Indent(level) + "message:" + " " + message)
  {
    BrowserifyErrorDelegates(fields, message, level);
    BrowserifyErrorObjectLines(message, level);
    StringFieldLine("name", "Browserify error", level);
    StringFieldLine("message", message, level);
  }

  /** A Browserify error renders as its replacement object. */
  lemma BrowserifyErrorDelegates(fields: seq<Field>, message: string, level: nat)
    ensures Rendered(Obj(fields, Some(message)), level) == Rendered(BrowserifyErrorObject(message), level)
  {
    BrowserifyErrorObjectSize(message);
  }

  /** The replacement object renders as its two field lines, joined. */
  lemma BrowserifyErrorObjectLines(message: string, level: nat)
    ensures var fs := BrowserifyErrorObject(message).fields;
            Rendered(BrowserifyErrorObject(message), level)
            == FieldLine(fs[0], level) + "\n" + FieldLine(fs[1], level)
  {
    var fs := BrowserifyErrorObject(message).fields;
    var first, second := FieldLine(fs[0], level), FieldLine(fs[1], level);
    BrowserifyErrorFieldLines(message, level);
    assert Join([first, second], "\n") == first + "\n" + second;
  }

  /** A string-valued field renders on its own line, after a space. */
  lemma StringFieldLine(key: string, text: string, level: nat)
    ensures FieldLine(Field(key, Str(text)), level) == Indent(level) + key + ":" + " " + text
  {
    assert PropertySpacer(Str(text)) == " ";
    assert Rendered(Str(text), level + 1) == text;
  }

  /** The replacement object renders its two fields, in order. */
  lemma BrowserifyErrorFieldLines(message: string, level: nat)
    ensures var fs := BrowserifyErrorObject(message).fields;
            FieldLines(fs, level) == [FieldLine(fs[0], level), FieldLine(fs[1], level)]
  {
    var fs := BrowserifyErrorObject(message).fields;
    assert fs[..1][..0] == [];
    assert FieldLines(fs[..1], level) == [FieldLine(fs[0], level)];
    assert fs[..2 - 1] == fs[..1];
  }

  /** `render`: scalars directly; arrays and objects by pushing one line per
      non-function entry, rendering each entry one level deeper, and joining
      the lines; a Browserify error through its replacement object. */
  method Render(v: JsValue, level: nat) returns (s: string)
    ensures s == Rendered(v, level)
    decreases Size(v), 1
  {
    match v {
      case Undefined =>
        s := "undefined";
      case Null =>
        s := "null";
      case Str(text) =>
        s := text;
      case Arr(elements) =>
        var result := RenderArrayLines(elements, level);
        s := Join(result, "\n");
      case Obj(fields, browserifyError) =>
        if browserifyError.Some? {
          var replacement := BrowserifyErrorObject(browserifyError.value);
          BrowserifyErrorObjectSize(browserifyError.value);
          s := Render(replacement, level);
          return;
        }
        var result := RenderFieldLines(fields, level);
        s := Join(result, "\n");
      case Num(n) =>
        s := NumberString(n);
      case Bool(b) =>
        s := if b then "true" else "false";
      case Func =>
        s := "";
      case Other =>
        s := "";
    }
  }

  /** The array loop of `render`: one line per non-function element, in
      order. */
  method RenderArrayLines(elements: seq<JsValue>, level: nat) returns (result: seq<string>)
    ensures result == ArrayLines(elements, level)
    decreases SizeSeq(elements), 3
  {
    result := [];
    var i := 0;
    while i < |elements|
      invariant 0 <= i <= |elements|
      invariant result == ArrayLines(elements[..i], level)
    {
      assert elements[..i + 1][..i] == elements[..i];
      var e := elements[i];
      if !IsFunction(e) {
        SizeSeqElement(elements, i);
        var line := RenderElementLine(e, level);
        result := result + [line];
      }
      i := i + 1;
    }
    assert elements[..i] == elements;
  }

  /** One element line, built piece by piece: indentation, `-`, the
      spacer, and the element rendered one level deeper. */
  method RenderElementLine(e: JsValue, level: nat) returns (line: string)
    ensures line == ElementLine(e, level)
    decreases Size(e), 2
  {
    line := "";
    var spacer := GetLevelSpacer(level);
    line := line + spacer;
    line := line + "-";
    line := line + PropertySpacer(e);
    var inner := Render(e, level + 1);
    line := line + inner;
  }

  /** The object loop of `render`: one line per key whose value is not a
      function, in order. */
  method RenderFieldLines(fields: seq<Field>, level: nat) returns (result: seq<string>)
    ensures result == FieldLines(fields, level)
    decreases SizeFields(fields), 3
  {
    result := [];
    var i := 0;
    while i < |fields|
      invariant 0 <= i <= |fields|
      invariant result == FieldLines(fields[..i], level)
    {
      assert fields[..i + 1][..i] == fields[..i];
      var f := fields[i];
      if !IsFunction(f.value) {
        SizeFieldsElement(fields, i);
        var line := RenderFieldLine(f, level);
        result := result + [line];
      }
      i := i + 1;
    }
    assert fields[..i] == fields;
  }

  /** One field line, built piece by piece: indentation, the key and `:`,
      the spacer, and the value rendered one level deeper. */
  method RenderFieldLine(f: Field, level: nat) returns (line: string)
    ensures line == FieldLine(f, level)
    decreases Size(f.value), 2
  {
    line := "";
    var spacer := GetLevelSpacer(level);
    line := line + spacer;
    line := line + f.key + ":";
    line := line + PropertySpacer(f.value);
    var inner := Render(f.value, level + 1);
    line := line + inner;
  }
}
