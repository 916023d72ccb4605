/**
 * The pure helpers behind the inspector's property editor: the label a
 * property key is shown under, the choices offered for enumerated string
 * properties, the record an edit produces, and the comma-separated text
 * box that edits list-valued properties.
 */
module PropertyEditor {
  import opened Wrappers
  import opened Seqs
  import opened Bricks
  import opened Catalog
  import opened Store

  // ---------------------------------------------------------------------------
  // Characters

  /** The regular-expression class `[A-Z]`: ASCII capitals only. */
  predicate IsUpper(c: char) { 'A' <= c <= 'Z' }

  /** `toUpperCase` on one character, for the ASCII letters. */
  function ToUpper(c: char): (u: char)
    ensures 'a' <= c <= 'z' ==> IsUpper(u)
    ensures !('a' <= c <= 'z') ==> u == c
  {
    if 'a' <= c <= 'z' then (c as int - 32) as char else c
  }

  /** The characters `String.prototype.trim` removes: white space and line terminators. */
  predicate IsJsSpace(c: char)
  {
    || c == ' ' || c == '\t' || c == '\n' || c == '\U{000B}' || c == '\U{000C}' || c == '\r'
    || c == '\U{00A0}' || c == '\U{1680}' || ('\U{2000}' <= c <= '\U{200A}') || c == '\U{2028}' || c == '\U{2029}'
    || c == '\U{202F}' || c == '\U{205F}' || c == '\U{3000}' || c == '\U{FEFF}'
  }

  // ---------------------------------------------------------------------------
  // trim

  /** The number of leading white-space characters. */
  function Lead(s: string): (n: nat)
    ensures n <= |s|
    ensures forall i :: 0 <= i < n ==> IsJsSpace(s[i])
    ensures n < |s| ==> !IsJsSpace(s[n])
  {
    if |s| == 0 || !IsJsSpace(s[0]) then 0 else 1 + Lead(s[1..])
  }

  /** The number of trailing white-space characters. */
  function Trail(s: string): (n: nat)
    ensures n <= |s|
    ensures forall i :: |s| - n <= i < |s| ==> IsJsSpace(s[i])
    ensures n < |s| ==> !IsJsSpace(s[|s| - 1 - n])
  {
    if |s| == 0 || !IsJsSpace(s[|s| - 1]) then 0 else 1 + Trail(s[..|s| - 1])
  }

  /**
   * `s.trim()`: `s` with the white space at both ends cut; the result neither
   * starts nor ends with white space (TrimCutsOnlySpace: only white space is cut).
   */
  function Trim(s: string): (r: string)
    ensures |r| == 0 || (!IsJsSpace(r[0]) && !IsJsSpace(r[|r| - 1]))
  {
    var t := s[Lead(s)..];
    t[..|t| - Trail(t)]
  }

  /** Trim returns a slice of its input, and everything it cut is white space. */
  lemma TrimCutsOnlySpace(s: string)
    ensures var n := Lead(s) + |Trim(s)|;
      n <= |s| && Trim(s) == s[Lead(s)..n] && AllSpace(s[..Lead(s)]) && AllSpace(s[n..])
  {
    var t := s[Lead(s)..];
    var n := Lead(s) + |Trim(s)|;
    assert s[n..] == t[|t| - Trail(t)..];
  }

  /** Every character is white space. */
  predicate AllSpace(s: string)
  {
    forall i :: 0 <= i < |s| ==> IsJsSpace(s[i])
  }

  /** A string that neither starts nor ends with white space is its own trim. */
  lemma TrimFixes(s: string)
    requires |s| == 0 || (!IsJsSpace(s[0]) && !IsJsSpace(s[|s| - 1]))
    ensures Trim(s) == s
  {
    assert Lead(s) == 0;
    assert s[0..] == s;
  }

  /** Trimming twice is trimming once. */
  lemma TrimIdempotent(s: string)
    ensures Trim(Trim(s)) == Trim(s)
  {
    TrimFixes(Trim(s));
  }

  /** A leading space is trimmed away with the rest of the leading white space. */
  lemma TrimAfterSpace(s: string)
    ensures Trim(" " + s) == Trim(s)
  {
    var t := " " + s;
    assert t[1..] == s;
    assert Lead(t) == 1 + Lead(s);
    assert t[Lead(t)..] == s[Lead(s)..];
  }

  // ---------------------------------------------------------------------------
  // formatPropertyName

  /** `replace(/([A-Z])/g, ' $1')`: a space before every capital. */
  function InsertSpaces(s: string): string
  {
    if |s| == 0 then [] else (if IsUpper(s[0]) then [' ', s[0]] else [s[0]]) + InsertSpaces(s[1..])
  }

  /** `replace(/^./, c => c.toUpperCase())`: the first character capitalised. */
  function CapitalizeFirst(s: string): (r: string)
    ensures |r| == |s| && forall i :: 1 <= i < |s| ==> r[i] == s[i]
    ensures |s| > 0 ==> r[0] == ToUpper(s[0])
  {
    if |s| == 0 then [] else [ToUpper(s[0])] + s[1..]
  }

  /** `formatPropertyName(key)`: spaces before capitals, first letter capitalised, trimmed. */
  function FormatPropertyName(key: string): (r: string)
    ensures |r| == 0 || (!IsJsSpace(r[0]) && !IsJsSpace(r[|r| - 1]))
    ensures |r| <= |InsertSpaces(key)|
  {
    Trim(CapitalizeFirst(InsertSpaces(key)))
  }

  /** The string with every space deleted. */
  function RemoveSpaces(s: string): (r: string)
    ensures ' ' !in r
  {
    if |s| == 0 then [] else (if s[0] == ' ' then [] else [s[0]]) + RemoveSpaces(s[1..])
  }

  lemma {:induction false} RemoveSpacesAppend(a: string, b: string)
    ensures RemoveSpaces(a + b) == RemoveSpaces(a) + RemoveSpaces(b)
    decreases |a|
  {
    if |a| > 0 {
      assert (a + b)[1..] == a[1..] + b;
      RemoveSpacesAppend(a[1..], b);
    } else {
      assert a + b == b;
    }
  }

  /** Inserting spaces adds nothing but spaces. */
  lemma {:induction false} InsertSpacesRemoved(s: string)
    ensures RemoveSpaces(InsertSpaces(s)) == RemoveSpaces(s)
    decreases |s|
  {
    if |s| > 0 {
      var head := if IsUpper(s[0]) then [' ', s[0]] else [s[0]];
      RemoveSpacesAppend(head, InsertSpaces(s[1..]));
      InsertSpacesRemoved(s[1..]);
      RemoveSpacesAppend([s[0]], s[1..]);
      assert s == [s[0]] + s[1..];
      if IsUpper(s[0]) {
        assert head == [' '] + [s[0]];
        RemoveSpacesAppend([' '], [s[0]]);
      }
    }
  }

  /** Inserting spaces keeps the last character. */
  lemma {:induction false} InsertSpacesLast(s: string)
    requires |s| > 0
    ensures |InsertSpaces(s)| > 0 && InsertSpaces(s)[|InsertSpaces(s)| - 1] == s[|s| - 1]
    decreases |s|
  {
    if |s| > 1 {
      InsertSpacesLast(s[1..]);
    }
  }

  /** In the spaced-out key every capital has a space right before it. */
  lemma {:induction false} InsertSpacesCapitals(s: string)
    ensures forall j :: 0 <= j < |InsertSpaces(s)| && IsUpper(InsertSpaces(s)[j]) ==> 0 < j && InsertSpaces(s)[j - 1] == ' '
    decreases |s|
  {
    if |s| > 0 {
      InsertSpacesCapitals(s[1..]);
      var head := if IsUpper(s[0]) then [' ', s[0]] else [s[0]];
      var w, tail := InsertSpaces(s), InsertSpaces(s[1..]);
      assert w == head + tail;
      forall j | 0 <= j < |w| && IsUpper(w[j]) ensures 0 < j && w[j - 1] == ' ' {
        if 0 < j < |head| {
          assert w[j - 1] == head[j - 1];
        } else if j > |head| {
          assert w[j] == tail[j - |head|] && w[j - 1] == tail[j - |head| - 1];
        }
      }
    }
  }

  /** A formatted name neither starts nor ends with white space. */
  lemma FormattedNameIsTrimmed(key: string)
    ensures var r := FormatPropertyName(key); |r| == 0 || (!IsJsSpace(r[0]) && !IsJsSpace(r[|r| - 1]))
  {
  }

  /** In a formatted name every capital after the first character follows a space. */
  lemma SpaceBeforeEveryCapital(key: string)
    ensures var r := FormatPropertyName(key);
      forall i :: 0 < i < |r| && IsUpper(r[i]) ==> r[i - 1] == ' '
  {
    var w := InsertSpaces(key);
    var u := CapitalizeFirst(w);
    InsertSpacesCapitals(key);
    var a := Lead(u);
    var r := Trim(u);
    forall i | 0 < i < |r| && IsUpper(r[i]) ensures r[i - 1] == ' ' {
      assert r[i] == u[a + i] == w[a + i];
      assert r[i - 1] == u[a + i - 1];
      assert a + i - 1 > 0 ==> u[a + i - 1] == w[a + i - 1];
    }
  }

  /** The label of a space-free key that starts with a capital is the spaced-out key without its leading space. */
  lemma FormatCapitalKey(key: string)
    requires |key| > 0 && IsUpper(key[0])
    requires forall i :: 0 <= i < |key| ==> !IsJsSpace(key[i])
    ensures FormatPropertyName(key) == [key[0]] + InsertSpaces(key[1..])
  {
    var w := InsertSpaces(key);
    InsertSpacesLast(key);
    assert w == [' ', key[0]] + InsertSpaces(key[1..]);
    var u := CapitalizeFirst(w);
    assert u == w;
    assert Lead(u) == 1;
    var t := u[1..];
    assert Trail(t) == 0;
  }

  /** The label of a space-free key that does not start with a capital is the spaced-out key, capitalised. */
  lemma FormatOtherKey(key: string)
    requires |key| > 0 && !IsUpper(key[0])
    requires forall i :: 0 <= i < |key| ==> !IsJsSpace(key[i])
    ensures FormatPropertyName(key) == [ToUpper(key[0])] + InsertSpaces(key[1..])
  {
    var w := InsertSpaces(key);
    InsertSpacesLast(key);
    assert w == [key[0]] + InsertSpaces(key[1..]);
    var u := CapitalizeFirst(w);
    assert u == [ToUpper(key[0])] + InsertSpaces(key[1..]);
    assert Lead(u) == 0;
    assert Trail(u) == 0;
  }

  /** Deleting the spaces from the label of a space-free key gives back the key, first letter capitalised. */
  lemma FormatRoundTrip(key: string)
    requires forall i :: 0 <= i < |key| ==> !IsJsSpace(key[i])
    ensures RemoveSpaces(FormatPropertyName(key)) == CapitalizeFirst(key)
  {
    if |key| > 0 {
      var rest := InsertSpaces(key[1..]);
      InsertSpacesRemoved(key[1..]);
      NoSpacesRemoved(key[1..]);
      var first := if IsUpper(key[0]) then key[0] else ToUpper(key[0]);
      if IsUpper(key[0]) {
        FormatCapitalKey(key);
      } else {
        FormatOtherKey(key);
      }
      RemoveSpacesAppend([first], rest);
      assert CapitalizeFirst(key) == [first] + key[1..];
    }
  }

  lemma {:induction false} NoSpacesRemoved(s: string)
    requires forall i :: 0 <= i < |s| ==> !IsJsSpace(s[i])
    ensures RemoveSpaces(s) == s
    decreases |s|
  {
    if |s| > 0 {
      NoSpacesRemoved(s[1..]);
    }
  }

  // ---------------------------------------------------------------------------
  // getSelectOptions

  datatype SelectOption = SelectOption(value: string, caption: string)

  /** The keys that have a fixed set of choices. */
  const SelectKeys: set<string> :=
    {"optionType", "position", "barrierType", "barrier", "lookbackType", "triggerType", "trackingType",
     "frequency", "resetFrequency", "operator", "selectionType", "units"}

  /** `getSelectOptions(key, brickType)`: the choices for an enumerated property, or `None`. */
  function GetSelectOptions(key: string, brickType: string): (r: Option<seq<SelectOption>>)
    ensures r.Some? <==> key in SelectKeys
    ensures r.Some? ==> 2 <= |r.value| <= 6
  {
    match key
    case "optionType" => Some([SelectOption("call", "Call"), SelectOption("put", "Put")])
    case "position" => Some([SelectOption("long", "Long"), SelectOption("short", "Short")])
    case "barrierType" =>
      Some([SelectOption("up-and-out", "Up and Out"), SelectOption("up-and-in", "Up and In"),
            SelectOption("down-and-out", "Down and Out"), SelectOption("down-and-in", "Down and In")])
    case "barrier" => Some([SelectOption("above", "Above"), SelectOption("below", "Below")])
    case "lookbackType" => Some([SelectOption("fixed", "Fixed"), SelectOption("floating", "Floating")])
    case "triggerType" =>
      Some([SelectOption("above", "Above"), SelectOption("below", "Below"), SelectOption("touch", "Touch")])
    case "trackingType" => Some([SelectOption("maximum", "Maximum"), SelectOption("minimum", "Minimum")])
    case "frequency" =>
      Some([SelectOption("monthly", "Monthly"), SelectOption("quarterly", "Quarterly"),
            SelectOption("semi-annually", "Semi-Annually"), SelectOption("annually", "Annually")])
    case "resetFrequency" =>
      Some([SelectOption("daily", "Daily"), SelectOption("monthly", "Monthly"), SelectOption("quarterly", "Quarterly")])
    case "operator" =>
      Some([SelectOption("GT", "Greater Than"), SelectOption("LT", "Less Than"), SelectOption("EQ", "Equal To"),
            SelectOption("GTE", "Greater Than or Equal"), SelectOption("LTE", "Less Than or Equal"),
            SelectOption("NEQ", "Not Equal To")])
    case "selectionType" =>
      Some([SelectOption("best", "Best"), SelectOption("worst", "Worst"), SelectOption("median", "Median"),
            SelectOption("random", "Random")])
    case "units" => Some([SelectOption("days", "Days"), SelectOption("months", "Months"), SelectOption("years", "Years")])
    case _ => None
  }

  /** The values a select offers, in display order. */
  function Values(options: seq<SelectOption>): (vs: seq<string>)
    ensures |vs| == |options| && forall i :: 0 <= i < |options| ==> vs[i] == options[i].value
  {
    seq(|options|, i requires 0 <= i < |options| => options[i].value)
  }

  /** Exactly the twelve table keys have choices, whatever the brick type. */
  lemma SelectOptionsExactlyForKeys(key: string, brickType: string)
    ensures GetSelectOptions(key, brickType).Some? <==> key in SelectKeys
  {
  }

  /** The brick type plays no part in the choices. */
  lemma SelectOptionsIgnoreBrickType(key: string, t1: string, t2: string)
    ensures GetSelectOptions(key, t1) == GetSelectOptions(key, t2)
  {
  }

  /** The option keys' choices are exactly the members of the option interfaces' string unions. */
  lemma OptionChoicesMatchUnions(t: string)
    ensures Values(GetSelectOptions("optionType", t).value) == OptionTypes
    ensures Values(GetSelectOptions("position", t).value) == OptionPositions
    ensures Values(GetSelectOptions("barrierType", t).value) == BarrierTypes
    ensures Values(GetSelectOptions("barrier", t).value) == DigitalBarriers
    ensures Values(GetSelectOptions("lookbackType", t).value) == LookbackTypes
  {
  }

  /** The logic and flow keys' choices are exactly the members of those interfaces' string unions. */
  lemma LogicChoicesMatchUnions(t: string)
    ensures Values(GetSelectOptions("triggerType", t).value) == TriggerTypes
    ensures Values(GetSelectOptions("trackingType", t).value) == TrackingTypes
    ensures Values(GetSelectOptions("frequency", t).value) == Frequencies
    ensures Values(GetSelectOptions("resetFrequency", t).value) == ResetFrequencies
  {
  }

  /** The math keys' choices are exactly the members of those interfaces' string unions. */
  lemma MathChoicesMatchUnions(t: string)
    ensures Values(GetSelectOptions("operator", t).value) == Operators
    ensures Values(GetSelectOptions("selectionType", t).value) == SelectionTypes
    ensures Values(GetSelectOptions("units", t).value) == TimeUnits
  {
  }

  /** Every string property a well-shaped record has under a select key holds one of the offered choices. */
  lemma ShapedStringsSelectable(k: BrickKind, p: Properties, key: string, t: string)
    requires HasShape(k, p) && key in p && p[key].Str? && GetSelectOptions(key, t).Some?
    ensures p[key].s in Values(GetSelectOptions(key, t).value)
  {
    match CategoryOf(k)
    case AssetCategory => AssetHasNoSelects(k, p, key, t);
    case OptionCategory => OptionStringsSelectable(k, p, key, t);
    case LogicCategory => LogicStringsSelectable(k, p, key, t);
    case FlowCategory => FlowStringsSelectable(k, p, key, t);
    case MathCategory => MathStringsSelectable(k, p, key, t);
  }

  /** Asset records have no property under a select key. */
  lemma AssetHasNoSelects(k: BrickKind, p: Properties, key: string, t: string)
    requires CategoryOf(k) == AssetCategory
    requires HasShape(k, p) && key in p
    ensures GetSelectOptions(key, t).None?
  {
  }

  lemma OptionStringsSelectable(k: BrickKind, p: Properties, key: string, t: string)
    requires CategoryOf(k) == OptionCategory
    requires HasShape(k, p) && key in p && p[key].Str? && GetSelectOptions(key, t).Some?
    ensures p[key].s in Values(GetSelectOptions(key, t).value)
  {
    OptionChoicesMatchUnions(t);
  }

  lemma LogicStringsSelectable(k: BrickKind, p: Properties, key: string, t: string)
    requires CategoryOf(k) == LogicCategory
    requires HasShape(k, p) && key in p && p[key].Str? && GetSelectOptions(key, t).Some?
    ensures p[key].s in Values(GetSelectOptions(key, t).value)
  {
    LogicChoicesMatchUnions(t);
  }

  lemma FlowStringsSelectable(k: BrickKind, p: Properties, key: string, t: string)
    requires CategoryOf(k) == FlowCategory
    requires HasShape(k, p) && key in p && p[key].Str? && GetSelectOptions(key, t).Some?
    ensures p[key].s in Values(GetSelectOptions(key, t).value)
  {
    LogicChoicesMatchUnions(t);
  }

  lemma MathStringsSelectable(k: BrickKind, p: Properties, key: string, t: string)
    requires CategoryOf(k) == MathCategory
    requires HasShape(k, p) && key in p && p[key].Str? && GetSelectOptions(key, t).Some?
    ensures p[key].s in Values(GetSelectOptions(key, t).value)
  {
    MathChoicesMatchUnions(t);
  }

  /** In particular every catalog default can be picked from its select. */
  lemma DefaultsSelectable(k: BrickKind, key: string, t: string)
    requires var p := Template(k).properties; key in p && p[key].Str? && GetSelectOptions(key, t).Some?
    ensures Template(k).properties[key].s in Values(GetSelectOptions(key, t).value)
  {
    DefaultsHaveShape(k);
    ShapedStringsSelectable(k, Template(k).properties, key, t);
  }

  // ---------------------------------------------------------------------------
  // handlePropertyChange

  /** `{ ...properties, [key]: value }`: the one key set to the new value, every other key kept. */
  function EditedProperties(p: Properties, key: string, value: PropValue): (r: Properties)
    ensures r.Keys == p.Keys + {key}
    ensures r[key] == value
    ensures forall k :: k in p && k != key ==> r[k] == p[k]
  {
    p[key := value]
  }

  /** An edit sent through the store changes one key of the edited brick and nothing else in the graph. */
  lemma PropertyChangeLands(bricks: seq<Brick>, i: nat, key: string, value: PropValue)
    requires i < |bricks| && UniqueBrickIds(bricks)
    ensures var p := bricks[i].properties;
      var r := Updated(bricks, bricks[i].id, PropertiesUpdate(EditedProperties(p, key, value)));
      && |r| == |bricks|
      && r[i] == bricks[i].(properties := p[key := value])
      && forall j :: 0 <= j < |r| && j != i ==> r[j] == bricks[j]
  {
  }

  // ---------------------------------------------------------------------------
  // The list editor: `value.join(', ')` shown, `text.split(',').map(s => s.trim())` stored

  /** `items.join(', ')`. */
  function Join(items: seq<string>): (r: string)
    ensures |items| >= 1 ==> |items[0]| <= |r| && r[..|items[0]|] == items[0]
    ensures |items| >= 2 ==> |items[0]| + 2 <= |r| && r[|items[0]|..|items[0]| + 2] == ", "
    ensures (forall i :: 0 <= i < |items| ==> ',' !in items[i]) && |items| <= 1 ==> ',' !in r
  {
    if |items| == 0 then ""
    else if |items| == 1 then items[0]
    else items[0] + ", " + Join(items[1..])
  }

  /** `text.split(',')`: the pieces between commas; the empty text is one empty piece. */
  function SplitComma(s: string): (r: seq<string>)
    ensures |r| >= 1
    ensures forall i :: 0 <= i < |r| ==> ',' !in r[i]
  {
    if |s| == 0 then [""]
    else if s[0] == ',' then [""] + SplitComma(s[1..])
    else
      var rest := SplitComma(s[1..]);
      [[s[0]] + rest[0]] + rest[1..]
  }

  /** What the list editor stores for the text in its box. */
  function EditList(text: string): (r: seq<string>)
    ensures |r| == |SplitComma(text)|
    ensures forall i :: 0 <= i < |r| ==> r[i] == Trim(SplitComma(text)[i])
    ensures forall i :: 0 <= i < |r| ==> Editable(r[i])
  {
    var parts := SplitComma(text);
    var r := seq(|parts|, i requires 0 <= i < |parts| => Trim(parts[i]));
    forall i | 0 <= i < |r| ensures Editable(r[i]) {
      TrimFixes(r[i]);
      TrimCutsOnlySpace(parts[i]);
      SliceCommaFree(parts[i], r[i]);
    }
    r
  }

  /** A slice of a comma-free string is comma-free. */
  lemma SliceCommaFree(s: string, r: string)
    requires ',' !in s && exists a, b :: 0 <= a <= b <= |s| && r == s[a..b]
    ensures ',' !in r
  {
    var a, b :| 0 <= a <= b <= |s| && r == s[a..b];
    forall k | 0 <= k < |r| ensures r[k] != ',' {
      assert r[k] == s[a + k];
    }
  }

  /** An item the editor can carry: no comma, and no white space at either end. */
  predicate Editable(item: string)
  {
    ',' !in item && Trim(item) == item
  }

  /** A comma-free text is one piece. */
  lemma {:induction false} SplitCommaFree(s: string)
    requires ',' !in s
    ensures SplitComma(s) == [s]
    decreases |s|
  {
    if |s| > 0 {
      SplitCommaFree(s[1..]);
      assert [s[0]] + s[1..] == s;
    }
  }

  /** A comma-free prefix before the first comma is the first piece. */
  lemma {:induction false} SplitCommaAppend(x: string, y: string)
    requires ',' !in x
    ensures SplitComma(x + "," + y) == [x] + SplitComma(y)
    decreases |x|
  {
    if |x| == 0 {
      assert x + "," + y == [','] + y;
      assert (x + "," + y)[1..] == y;
    } else {
      assert (x + "," + y)[1..] == x[1..] + "," + y;
      SplitCommaAppend(x[1..], y);
      assert [x[0]] + x[1..] == x;
    }
  }

  /** Splitting a joined list (behind a comma-free prefix) gives the items, each after the first behind one space. */
  lemma {:induction false} SplitJoined(p: string, items: seq<string>)
    requires ',' !in p && |items| >= 1
    requires forall i :: 0 <= i < |items| ==> ',' !in items[i]
    ensures var r := SplitComma(p + Join(items));
      |r| == |items| && r[0] == p + items[0] && forall i :: 1 <= i < |items| ==> r[i] == " " + items[i]
    decreases |items|
  {
    if |items| == 1 {
      SplitCommaFree(p + items[0]);
    } else {
      var rest := items[1..];
      assert p + Join(items) == (p + items[0]) + "," + (" " + Join(rest));
      SplitCommaAppend(p + items[0], " " + Join(rest));
      SplitJoined(" ", rest);
    }
  }

  /** Trimming the pieces of a joined list recovers the items. */
  lemma TrimPieces(items: seq<string>, parts: seq<string>)
    requires |parts| == |items| >= 1 && parts[0] == items[0]
    requires forall i :: 1 <= i < |items| ==> parts[i] == " " + items[i]
    requires forall i :: 0 <= i < |items| ==> Trim(items[i]) == items[i]
    ensures forall i :: 0 <= i < |parts| ==> Trim(parts[i]) == items[i]
  {
    forall i | 1 <= i < |items| ensures Trim(parts[i]) == items[i] {
      TrimAfterSpace(items[i]);
      assert Trim(parts[i]) == Trim(items[i]);
    }
    assert Trim(parts[0]) == items[0];
  }

  /** Shown and edited back unchanged, a non-empty list of editable items is the same list. */
  lemma ListRoundTrip(items: seq<string>)
    requires |items| >= 1 && forall i :: 0 <= i < |items| ==> Editable(items[i])
    ensures EditList(Join(items)) == items
  {
    var text := Join(items);
    SplitJoined("", items);
    assert "" + text == text;
    var parts := SplitComma(text);
    assert "" + items[0] == items[0];
    assert forall i :: 0 <= i < |items| ==> Trim(items[i]) == items[i];
    TrimPieces(items, parts);
    EditPieces(text, items);
  }

  /** A text whose trimmed pieces are the items is stored as the items. */
  lemma EditPieces(text: string, items: seq<string>)
    requires |SplitComma(text)| == |items|
    requires forall i :: 0 <= i < |items| ==> Trim(SplitComma(text)[i]) == items[i]
    ensures EditList(text) == items
  {
    var r := EditList(text);
    assert forall i :: 0 <= i < |r| ==> r[i] == items[i];
  }

  /** As written: an empty list is shown as an empty box, and an empty box is stored as one empty item. */
  lemma EmptyListDoesNotRoundTrip()
    ensures Join([]) == "" && EditList("") == [""]
    ensures EditList(Join([])) != []
  {
    assert Trim("") == "";
  }

  predicate NonEmpty(item: string) { |item| > 0 }

  /** The evidently intended editor: as written, then without the empty items. */
  function EditListCorrected(text: string): (r: seq<string>)
    ensures |r| <= |SplitComma(text)|
    ensures forall x :: x in r ==> Editable(x) && NonEmpty(x)
    ensures forall x :: x in EditList(text) && NonEmpty(x) ==> x in r
  {
    Filter(EditList(text), NonEmpty)
  }

  /** The corrected editor stores an empty box as the empty list. */
  lemma CorrectedEmptyBox()
    ensures EditListCorrected("") == []
  {
    assert EditList("") == [""];
    assert [""][..0] == [];
  }

  /** The intended round trip, for every list of non-empty editable items, the empty list included. */
  lemma CorrectedListRoundTrip(items: seq<string>)
    requires forall i :: 0 <= i < |items| ==> Editable(items[i]) && NonEmpty(items[i])
    ensures EditListCorrected(Join(items)) == items
  {
    if |items| == 0 {
      CorrectedEmptyBox();
    } else {
      ListRoundTrip(items);
      FilterAll(items, NonEmpty);
    }
  }
}
