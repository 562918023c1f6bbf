/**
 * The JSON parser. The text is taken as already parsed: the library parser is a
 * parameter `parse` from text to an optional JSON tree (`None` where it throws).
 * The parser selects array or line mode, flattens each object into dotted keys,
 * builds a sorted key-union schema from the first objects and emits the flow of
 * events of a parse.
 */
module JsonParser {
  import opened Options
  import opened Text
  import opened NumberText
  import opened Votes
  import opened ParsedData
  import opened ParseEvents

  const SAMPLE_SIZE_FOR_SCHEMA: nat := 10
  const NESTED_SEPARATOR: string := "."

  /** A JSON element. `JLiteral` is a non-null primitive with its literal text and
      whether it was a string; an object is its entries in iteration order. */
  datatype Json =
    | JNull
    | JLiteral(content: string, isString: bool)
    | JArray(items: seq<Json>)
    | JObject(members: seq<Member>)

  datatype Member = Member(key: string, value: Json)

  /** What the library parser makes of a text: `None` where it throws. */
  type JsonReader = string -> Option<Json>

  // ---------------------------------------------------------------------------
  // The library's `toString` of an element
  // ---------------------------------------------------------------------------

  function HexDigitLower(n: nat): char
    requires n < 16
  {
    if n < 10 then (n + '0' as int) as char else (n - 10 + 'a' as int) as char
  }

  /** The escape of one character inside a quoted JSON string. */
  function EscapeChar(c: char): string {
    if c == '"' then "\\\""
    else if c == '\\' then "\\\\"
    else if c == '\n' then "\\n"
    else if c == '\t' then "\\t"
    else if c == '\r' then "\\r"
    else if c == '\U{0008}' then "\\b"
    else if c == '\U{000C}' then "\\f"
    else if c < ' ' then "\\u00" + [HexDigitLower(c as int / 16), HexDigitLower(c as int % 16)]
    else [c]
  }

  function EscapeJson(s: string): string {
    if |s| == 0 then "" else EscapeChar(s[0]) + EscapeJson(s[1..])
  }

  /** A string written as a JSON string literal. */
  function Quoted(s: string): string {
    "\"" + EscapeJson(s) + "\""
  }

  /** The compact text of an element: literals as written (strings quoted),
      arrays and objects with `,` between entries and no spaces. */
  function Render(j: Json): string
    decreases j, 1
  {
    match j
    case JNull => "null"
    case JLiteral(c, isString) => if isString then Quoted(c) else c
    case JArray(items) => "[" + RenderItems(items) + "]"
    case JObject(members) => "{" + RenderMembers(members) + "}"
  }

  function RenderItems(items: seq<Json>): string
    decreases items, 0
  {
    if |items| == 0 then ""
    else if |items| == 1 then Render(items[0])
    else Render(items[0]) + "," + RenderItems(items[1..])
  }

  function RenderMembers(members: seq<Member>): string
    decreases members, 0
  {
    if |members| == 0 then ""
    else
      var m := members[0];
      var entry := Quoted(m.key) + ":" + Render(m.value);
      if |members| == 1 then entry else entry + "," + RenderMembers(members[1..])
  }

  // ---------------------------------------------------------------------------
  // Flattening
  // ---------------------------------------------------------------------------

  /** The key of an entry under a prefix: `prefix.key`, or `key` at the top. */
  function FullKey(prefix: string, key: string): string {
    if prefix == "" then key else prefix + NESTED_SEPARATOR + key
  }

  /** The value recorded for a non-object element: an array's text, or a
      primitive's content (for `null` that is the text "null"). */
  function LeafValue(j: Json): string
    requires !j.JObject?
  {
    match j
    case JArray(_) => Render(j)
    case JNull => "null"
    case JLiteral(c, _) => c
  }

  /** `flattenObject(obj, prefix)`: the entries in order, nested objects merged in
      under their dotted key, later entries overriding earlier ones. */
  function Flatten(members: seq<Member>, prefix: string): (r: map<string, Option<string>>)
    decreases members
  {
    if |members| == 0 then map[]
    else
      var n := |members| - 1;
      var before := Flatten(members[..n], prefix);
      var m := members[n];
      var key := FullKey(prefix, m.key);
      assert m in members;
      match m.value
      case JObject(nested) => before + Flatten(nested, key)
      case _ => before[key := Some(LeafValue(m.value))]
  }

  /** Reference definition of the flattened keys: every path from the object to
      an element that is not itself an object, with `.` between the keys. */
  function Paths(members: seq<Member>, prefix: string): set<string>
    decreases members
  {
    if |members| == 0 then {}
    else
      var n := |members| - 1;
      var m := members[n];
      assert m in members;
      Paths(members[..n], prefix) +
      (match m.value
       case JObject(nested) => Paths(nested, FullKey(prefix, m.key))
       case _ => {FullKey(prefix, m.key)})
  }

  /** The flattened keys are exactly the leaf paths. */
  lemma {:induction false} FlattenKeys(members: seq<Member>, prefix: string)
    ensures Flatten(members, prefix).Keys == Paths(members, prefix)
    decreases members
  {
    if |members| > 0 {
      var n := |members| - 1;
      var m := members[n];
      assert m in members;
      FlattenKeys(members[..n], prefix);
      if m.value.JObject? {
        FlattenKeys(m.value.members, FullKey(prefix, m.key));
      }
    }
  }

  /** Every flattened value is present: a JSON `null` is a primitive whose text is
      "null", so the null branch of the flattening is never taken. */
  lemma {:induction false} FlattenNeverNull(members: seq<Member>, prefix: string)
    ensures forall k | k in Flatten(members, prefix) :: Flatten(members, prefix)[k].Some?
    decreases members
  {
    if |members| > 0 {
      var n := |members| - 1;
      var m := members[n];
      assert m in members;
      FlattenNeverNull(members[..n], prefix);
      if m.value.JObject? {
        FlattenNeverNull(m.value.members, FullKey(prefix, m.key));
      }
    }
  }

  /** Under a non-empty prefix every key is `prefix.` followed by something. */
  lemma {:induction false} FlattenUnderPrefix(members: seq<Member>, prefix: string)
    requires prefix != ""
    ensures forall k | k in Flatten(members, prefix) :: StartsWith(k, prefix + NESTED_SEPARATOR)
    decreases members
  {
    if |members| > 0 {
      var n := |members| - 1;
      var m := members[n];
      assert m in members;
      FlattenUnderPrefix(members[..n], prefix);
      var key := FullKey(prefix, m.key);
      var p := prefix + NESTED_SEPARATOR;
      assert key == p + m.key;
      assert key[..|p|] == p;
      if m.value.JObject? {
        FlattenUnderPrefix(m.value.members, key);
        forall k | k in Flatten(m.value.members, key) ensures StartsWith(k, p) {
          assert k[..|key + NESTED_SEPARATOR|] == key + NESTED_SEPARATOR;
          assert k[..|p|] == (key + NESTED_SEPARATOR)[..|p|];
        }
      }
    }
  }

  /** What `flattenObject` records for a non-object element: the library's text of
      an array, of `null` and of a non-string literal, and the content of a string
      literal without its quotes. */
  lemma LeafValueText(j: Json)
    requires !j.JObject?
    ensures !(j.JLiteral? && j.isString) ==> LeafValue(j) == Render(j)
    ensures j.JLiteral? && j.isString ==> Quoted(LeafValue(j)) == Render(j)
  {
  }

  /** An element that is not an object, with its dotted path. */
  datatype Leaf = Leaf(path: string, element: Json)

  /** Reference definition of the flattened entries: the non-object elements in
      document order, each with its path. */
  function Leaves(members: seq<Member>, prefix: string): (r: seq<Leaf>)
    ensures forall i | 0 <= i < |r| :: !r[i].element.JObject?
    decreases members
  {
    if |members| == 0 then []
    else
      var n := |members| - 1;
      var m := members[n];
      assert m in members;
      var key := FullKey(prefix, m.key);
      var before := Leaves(members[..n], prefix);
      match m.value
      case JObject(nested) => before + Leaves(nested, key)
      case _ => before + [Leaf(key, m.value)]
  }

  /** The leaf at `i` is the last one with its path. */
  predicate LastWithPath(leaves: seq<Leaf>, i: nat) {
    i < |leaves| && forall j | i < j < |leaves| :: leaves[j].path != leaves[i].path
  }

  /** Every leaf's path is a key of the map. */
  predicate PathsRecorded(leaves: seq<Leaf>, flat: map<string, Option<string>>) {
    forall i | 0 <= i < |leaves| :: leaves[i].path in flat
  }

  /** The leaf at `i` is the last with path `k`, and `k` maps to its value. */
  predicate HoldsLastLeaf(leaves: seq<Leaf>, flat: map<string, Option<string>>, k: string, i: nat) {
    && i < |leaves| && leaves[i].path == k && LastWithPath(leaves, i) && !leaves[i].element.JObject?
    && k in flat && flat[k] == Some(LeafValue(leaves[i].element))
  }

  /** Every key of the map holds the value of the last leaf with that path. */
  predicate ValuesOfLastLeaves(leaves: seq<Leaf>, flat: map<string, Option<string>>) {
    forall k | k in flat :: exists i | 0 <= i < |leaves| :: HoldsLastLeaf(leaves, flat, k, i)
  }

  /** Every leaf's path is a flattened key, and every flattened key holds the value
      of the last leaf with that path: later entries override earlier ones. */
  lemma {:induction false} FlattenValues(members: seq<Member>, prefix: string)
    ensures PathsRecorded(Leaves(members, prefix), Flatten(members, prefix))
    ensures ValuesOfLastLeaves(Leaves(members, prefix), Flatten(members, prefix))
    decreases members
  {
    if |members| > 0 {
      var n := |members| - 1;
      var m := members[n];
      assert m in members;
      var key := FullKey(prefix, m.key);
      FlattenValues(members[..n], prefix);
      var before, flatBefore := Leaves(members[..n], prefix), Flatten(members[..n], prefix);
      if m.value.JObject? {
        FlattenValues(m.value.members, key);
        MergeLeaves(before, flatBefore, Leaves(m.value.members, key), Flatten(m.value.members, key));
      } else {
        var added, flatAdded := [Leaf(key, m.value)], map[key := Some(LeafValue(m.value))];
        assert HoldsLastLeaf(added, flatAdded, key, 0);
        assert flatBefore[key := Some(LeafValue(m.value))] == flatBefore + flatAdded;
        MergeLeaves(before, flatBefore, added, flatAdded);
      }
    }
  }

  /** The leaves property of `FlattenValues` survives appending leaves whose map
      overrides the earlier one. */
  lemma MergeLeaves(before: seq<Leaf>, flatBefore: map<string, Option<string>>,
                    added: seq<Leaf>, flatAdded: map<string, Option<string>>)
    requires PathsRecorded(before, flatBefore) && ValuesOfLastLeaves(before, flatBefore)
    requires PathsRecorded(added, flatAdded) && ValuesOfLastLeaves(added, flatAdded)
    ensures PathsRecorded(before + added, flatBefore + flatAdded)
    ensures ValuesOfLastLeaves(before + added, flatBefore + flatAdded)
  {
    var leaves, flat := before + added, flatBefore + flatAdded;
    forall i | 0 <= i < |leaves| ensures leaves[i].path in flat {
      if i >= |before| {
        assert leaves[i] == added[i - |before|];
      }
    }
    forall k | k in flat ensures exists i | 0 <= i < |leaves| :: HoldsLastLeaf(leaves, flat, k, i) {
      if k in flatAdded {
        var i := LastLeafOf(added, flatAdded, k);
        assert leaves[|before| + i] == added[i];
        forall j | |before| + i < j < |leaves| ensures leaves[j].path != k {
          assert leaves[j] == added[j - |before|];
        }
        assert HoldsLastLeaf(leaves, flat, k, |before| + i);
      } else {
        var i := LastLeafOf(before, flatBefore, k);
        assert leaves[i] == before[i];
        forall j | i < j < |leaves| ensures leaves[j].path != k {
          if j >= |before| {
            assert leaves[j] == added[j - |before|];
          }
        }
        assert HoldsLastLeaf(leaves, flat, k, i);
      }
    }
  }

  /** The witness leaf of one flattened key. */
  lemma LastLeafOf(leaves: seq<Leaf>, flat: map<string, Option<string>>, k: string) returns (i: nat)
    requires k in flat && ValuesOfLastLeaves(leaves, flat)
    ensures HoldsLastLeaf(leaves, flat, k, i)
  {
    i :| 0 <= i < |leaves| && HoldsLastLeaf(leaves, flat, k, i);
  }

  /** `flattenObject`: walks the entries, recursing into nested objects, and fills
      the result map. */
  method FlattenObject(members: seq<Member>, prefix: string) returns (result: map<string, Option<string>>)
    ensures result == Flatten(members, prefix)
    decreases members
  {
    result := map[];
    var i := 0;
    while i < |members|
      invariant 0 <= i <= |members|
      invariant result == Flatten(members[..i], prefix)
    {
      var m := members[i];
      assert members[..i + 1][..i] == members[..i];
      assert members[..i + 1][i] == m;
      assert m in members;
      var key := FullKey(prefix, m.key);
      match m.value {
        case JObject(nested) =>
          var inner := FlattenObject(nested, key);
          result := result + inner;
        case JArray(_) =>
          result := result[key := Some(Render(m.value))];
        case JLiteral(c, isString) =>
          result := result[key := Some(if isString then c else Render(m.value))];
        case JNull =>
          result := result[key := Some(Render(m.value))];
      }
      i := i + 1;
    }
    assert members[..|members|] == members;
  }

  /** The nested-object example: `{"user": {"name": "Alice", "email": "alice@example.com"},
      "action": "login"}` flattens to `user.name`, `user.email` and `action`. */
  lemma FlattenNestedExample()
    ensures var user := JObject([Member("name", JLiteral("Alice", true)),
                                 Member("email", JLiteral("alice@example.com", true))]);
      Flatten([Member("user", user), Member("action", JLiteral("login", true))], "")
      == map["user.name" := Some("Alice"), "user.email" := Some("alice@example.com"), "action" := Some("login")]
  {
    var user := [Member("name", JLiteral("Alice", true)), Member("email", JLiteral("alice@example.com", true))];
    var top := [Member("user", JObject(user)), Member("action", JLiteral("login", true))];
    assert top[..1] == [Member("user", JObject(user))];
    assert top[..1][..0] == [];
    assert user[..1] == [Member("name", JLiteral("Alice", true))];
    assert user[..1][..0] == [];
    assert FullKey("user", "name") == "user.name";
    assert FullKey("user", "email") == "user.email";
    assert Flatten(user[..1], "user") == map["user.name" := Some("Alice")];
    var inner := map["user.name" := Some("Alice"), "user.email" := Some("alice@example.com")];
    assert Flatten(user, "user") == inner;
    assert Flatten(top[..1], "") == map[] + inner;
    assert map[] + inner == inner;
    assert Flatten(top, "") == inner["action" := Some("login")];
  }

  /** An array value is kept as its text: `["a","b","c"]`. */
  lemma FlattenArrayExample()
    ensures var tags := JArray([JLiteral("a", true), JLiteral("b", true), JLiteral("c", true)]);
      Flatten([Member("tags", tags)], "") == map["tags" := Some("[\"a\",\"b\",\"c\"]")]
  {
    var tags := JArray([JLiteral("a", true), JLiteral("b", true), JLiteral("c", true)]);
    assert [Member("tags", tags)][..0] == [];
    assert [JLiteral("a", true), JLiteral("b", true), JLiteral("c", true)][1..] == [JLiteral("b", true), JLiteral("c", true)];
    assert [JLiteral("b", true), JLiteral("c", true)][1..] == [JLiteral("c", true)];
    assert Render(tags) == "[\"a\",\"b\",\"c\"]";
  }

  // ---------------------------------------------------------------------------
  // Type of one value
  // ---------------------------------------------------------------------------

  /** `inferTypeFromValue`: `null` is UNKNOWN; a value the library reads back as a
      primitive is BOOLEAN, INTEGER or DECIMAL by its content, else `infer`; one it
      reads as an array or object is STRING; one it cannot read goes to `infer`. */
  function InferFromValue(value: Option<string>, parse: JsonReader): ColumnType {
    if value.None? then UNKNOWN
    else
      match parse(value.value)
      case None => Infer(value)
      case Some(JArray(_)) => STRING
      case Some(JObject(_)) => STRING
      case Some(JNull) => PrimitiveType("null", value.value)
      case Some(JLiteral(content, _)) => PrimitiveType(content, value.value)
  }

  /** The type of a value read back as a primitive with the given content:
      `booleanOrNull`, then `longOrNull`, then `doubleOrNull`, then `infer`. */
  function PrimitiveType(content: string, value: string): ColumnType {
    if IsBoolWord(content) then BOOLEAN
    else if IsLongText(content) then INTEGER
    else if IsDoubleText(content) then DECIMAL
    else Infer(Some(value))
  }

  /** For every reader: `null` is UNKNOWN, a present value that is not blank is never
      UNKNOWN, a value read back as an array or an object is STRING, and one the
      reader rejects, or reads back as `null`, is typed by `infer`. */
  lemma InferFromValueSpec(value: Option<string>, parse: JsonReader)
    ensures value.None? ==> InferFromValue(value, parse) == UNKNOWN
    ensures value.Some? && !IsBlank(value.value) ==> InferFromValue(value, parse) != UNKNOWN
    ensures value.Some? && parse(value.value).Some? && (parse(value.value).value.JArray? || parse(value.value).value.JObject?)
            ==> InferFromValue(value, parse) == STRING
    ensures value.Some? && parse(value.value).None? ==> InferFromValue(value, parse) == Infer(value)
    ensures value.Some? && parse(value.value) == Some(JNull) ==> InferFromValue(value, parse) == Infer(value)
  {
    if value.Some? {
      InferUnknownIffBlank(value);
      match parse(value.value)
      case None =>
      case Some(JArray(_)) =>
      case Some(JObject(_)) =>
      case Some(JNull) =>
        NullTextIsNotPrimitive("null");
      case Some(JLiteral(content, _)) =>
        assert InferFromValue(value, parse) == PrimitiveType(content, value.value);
    }
  }

  /** A value read back as a literal is BOOLEAN, INTEGER or DECIMAL by the literal's
      content, tried in that order, and otherwise typed by `infer` of the value. */
  lemma InferFromLiteral(value: string, parse: JsonReader, content: string, isString: bool)
    requires parse(value) == Some(JLiteral(content, isString))
    ensures IsBoolWord(content) ==> InferFromValue(Some(value), parse) == BOOLEAN
    ensures !IsBoolWord(content) && IsLongText(content) ==> InferFromValue(Some(value), parse) == INTEGER
    ensures !IsBoolWord(content) && !IsLongText(content) && IsDoubleText(content)
            ==> InferFromValue(Some(value), parse) == DECIMAL
    ensures !IsBoolWord(content) && !IsDoubleText(content) ==> InferFromValue(Some(value), parse) == Infer(Some(value))
  {
    if IsLongText(content) {
      LongTextIsDoubleText(content);
    }
  }

  /** The text "null" is no boolean word, no Long and no Double. */
  lemma NullTextIsNotPrimitive(t: string)
    requires t == "null"
    ensures !IsBoolWord(t) && !IsLongText(t) && !IsDoubleText(t)
  {
    assert !IsAsciiDigit(t[0]) && !IsSign(t[0]) && !IsControlOrSpace(t[0]) && !IsControlOrSpace(t[3]);
    assert !AllDigits(t[0..]) by { assert t[0..][0] == t[0]; }
    assert DigitRun(t) == 0;
    assert StripControl(t) == t;
    assert t != "NaN" && t != "Infinity" by { assert t[0] != "NaN"[0] && t[0] != "Infinity"[0]; }
    assert !IsFloatSuffix(t[|t| - 1]);
    assert !CharEqualsIgnoreCase(t[0], "true"[0]) && !CharEqualsIgnoreCase(t[0], "false"[0]);
  }

  // ---------------------------------------------------------------------------
  // Reading the content
  // ---------------------------------------------------------------------------

  /** `filterIsInstance<JsonObject>()`: the objects among the elements, in order. */
  function ObjectsOf(items: seq<Json>): (r: seq<seq<Member>>)
    ensures |r| <= |items|
    ensures forall i | 0 <= i < |r| :: JObject(r[i]) in items
    ensures (forall i | 0 <= i < |items| :: items[i].JObject?) ==>
              |r| == |items| && forall i | 0 <= i < |items| :: r[i] == items[i].members
  {
    if |items| == 0 then []
    else
      var n := |items| - 1;
      var before := ObjectsOf(items[..n]);
      assert forall i | 0 <= i < n :: items[..n][i] == items[i];
      if items[n].JObject? then before + [items[n].members] else before
  }

  /** `mapNotNull { parse(line) as? JsonObject }` over the lines. */
  function ObjectLines(lines: seq<string>, parse: JsonReader): (r: seq<seq<Member>>)
    ensures |r| <= |lines|
    ensures forall i | 0 <= i < |r| :: exists j | 0 <= j < |lines| :: parse(lines[j]) == Some(JObject(r[i]))
  {
    if |lines| == 0 then []
    else
      var n := |lines| - 1;
      var before := ObjectLines(lines[..n], parse);
      assert forall j | 0 <= j < n :: lines[..n][j] == lines[j];
      match parse(lines[n])
      case Some(JObject(members)) => before + [members]
      case _ => before
  }

  /** `parseJsonContent`: array mode when the trimmed text starts with `[`, where
      anything but an array gives no objects; line mode otherwise, one object per
      non-blank line that reads as an object. */
  function ParseJsonContent(content: string, parse: JsonReader): seq<seq<Member>> {
    var trimmed := Trim(content);
    if StartsWith(trimmed, "[") then
      match parse(trimmed)
      case Some(JArray(items)) => ObjectsOf(items)
      case _ => []
    else ObjectLines(NonBlankLines(trimmed), parse)
  }

  /** `countRows`: the number of objects (the fallback to 0 is for a failure that
      the reading already catches). */
  function CountRows(content: string, parse: JsonReader): nat {
    |ParseJsonContent(content, parse)|
  }

  /** In array mode, an array of objects gives exactly its elements. */
  lemma ArrayOfObjects(content: string, parse: JsonReader, items: seq<Json>)
    requires StartsWith(Trim(content), "[") && parse(Trim(content)) == Some(JArray(items))
    requires forall i | 0 <= i < |items| :: items[i].JObject?
    ensures |ParseJsonContent(content, parse)| == |items|
    ensures forall i | 0 <= i < |items| :: ParseJsonContent(content, parse)[i] == items[i].members
  {
  }

  /** In array mode, text the library cannot read, or reads as something other than
      an array, gives no objects. */
  lemma ArrayModeFailure(content: string, parse: JsonReader)
    requires StartsWith(Trim(content), "[") && !(parse(Trim(content)).Some? && parse(Trim(content)).value.JArray?)
    ensures ParseJsonContent(content, parse) == []
  {
  }

  /** In line mode, every object read comes from one non-blank line of the text. */
  lemma LineModeObjects(content: string, parse: JsonReader)
    requires !StartsWith(Trim(content), "[")
    ensures var lines := NonBlankLines(Trim(content));
      var objects := ParseJsonContent(content, parse);
      |objects| <= |lines| &&
      forall i | 0 <= i < |objects| :: exists j | 0 <= j < |lines| :: parse(lines[j]) == Some(JObject(objects[i]))
  {
  }

  /** `[]` holds no objects. */
  lemma EmptyArrayHasNoObjects(parse: JsonReader)
    requires parse("[]") == Some(JArray([]))
    ensures ParseJsonContent("[]", parse) == []
  {
    assert Trim("[]") == "[]" by {
      assert TrimStart("[]") == "[]";
      assert TrimEnd("[]") == "[]";
    }
    assert StartsWith("[]", "[");
  }

  // ---------------------------------------------------------------------------
  // The schema of the sample
  // ---------------------------------------------------------------------------

  /** All flattened keys of the objects. */
  function KeyUnion(objects: seq<seq<Member>>): set<string> {
    if |objects| == 0 then {}
    else KeyUnion(objects[..|objects| - 1]) + Flatten(objects[|objects| - 1], "").Keys
  }

  /** The types of the key's occurrences, one per object holding it, in object order. */
  function KeyTypes(objects: seq<seq<Member>>, key: string, parse: JsonReader): seq<ColumnType> {
    if |objects| == 0 then []
    else
      var flat := Flatten(objects[|objects| - 1], "");
      KeyTypes(objects[..|objects| - 1], key, parse)
      + (if key in flat then [InferFromValue(flat[key], parse)] else [])
  }

  /** Whether some occurrence of the key is `null`. */
  function KeyNullable(objects: seq<seq<Member>>, key: string): bool {
    if |objects| == 0 then false
    else
      var flat := Flatten(objects[|objects| - 1], "");
      KeyNullable(objects[..|objects| - 1], key) || (key in flat && flat[key].None?)
  }

  /** The column of one key: the majority of its types, the first seen on a tie. A key
      of the schema always has types, so the UNKNOWN and STRING defaults are not used. */
  function JsonColumn(key: string, objects: seq<seq<Member>>, parse: JsonReader): ColumnInfo {
    var types := KeyTypes(objects, key, parse);
    var voted := if |types| == 0 then [UNKNOWN] else types;
    var majority := Majority(voted);
    ColumnInfo(key, if majority.Some? then majority.value else STRING, KeyNullable(objects, key))
  }

  function ColumnsFor(keys: seq<string>, objects: seq<seq<Member>>, parse: JsonReader): (cols: seq<ColumnInfo>)
    ensures |cols| == |keys|
    ensures forall i | 0 <= i < |keys| :: cols[i] == JsonColumn(keys[i], objects, parse)
  {
    if |keys| == 0 then [] else [JsonColumn(keys[0], objects, parse)] + ColumnsFor(keys[1..], objects, parse)
  }

  /** `buildSchemaFromSample`: one column per key of the sample, in sorted order. */
  function SchemaOf(sample: seq<seq<Member>>, parse: JsonReader): seq<ColumnInfo> {
    ColumnsFor(SortedKeys(KeyUnion(sample)), sample, parse)
  }

  lemma {:induction false} KeyUnionMembers(objects: seq<seq<Member>>, key: string)
    ensures key in KeyUnion(objects) <==> exists i | 0 <= i < |objects| :: key in Flatten(objects[i], "")
  {
    if |objects| > 0 {
      var n := |objects| - 1;
      KeyUnionMembers(objects[..n], key);
      assert forall i | 0 <= i < n :: objects[..n][i] == objects[i];
    }
  }

  /** A key has types exactly when it occurs; then it has one type per occurrence. */
  lemma {:induction false} KeyTypesOccur(objects: seq<seq<Member>>, key: string, parse: JsonReader)
    ensures |KeyTypes(objects, key, parse)| > 0 <==> key in KeyUnion(objects)
  {
    if |objects| > 0 {
      KeyTypesOccur(objects[..|objects| - 1], key, parse);
    }
  }

  /** Nullability means some sampled occurrence of the key is `null`. */
  lemma {:induction false} KeyNullableOccur(objects: seq<seq<Member>>, key: string)
    ensures KeyNullable(objects, key) <==>
      exists i | 0 <= i < |objects| :: key in Flatten(objects[i], "") && Flatten(objects[i], "")[key].None?
  {
    if |objects| > 0 {
      var n := |objects| - 1;
      KeyNullableOccur(objects[..n], key);
      assert forall i | 0 <= i < n :: objects[..n][i] == objects[i];
    }
  }

  /** No JSON column is nullable, since flattening records `null` as the text "null". */
  lemma JsonNeverNullable(objects: seq<seq<Member>>, key: string)
    ensures !KeyNullable(objects, key)
  {
    KeyNullableOccur(objects, key);
    forall i | 0 <= i < |objects| ensures !(key in Flatten(objects[i], "") && Flatten(objects[i], "")[key].None?) {
      FlattenNeverNull(objects[i], "");
    }
  }

  /** The schema lists the sample's keys in sorted order, each typed by the most
      frequent type of its occurrences. */
  lemma SchemaShape(sample: seq<seq<Member>>, parse: JsonReader)
    ensures var cols := SchemaOf(sample, parse);
      && IsSortedOf(DataSchema(cols).ColumnNames(), KeyUnion(sample))
      && forall i | 0 <= i < |cols| ::
           var types := KeyTypes(sample, cols[i].name, parse);
           && cols[i].columnType in types
           && forall t | t in types :: Count(types, t) <= Count(types, cols[i].columnType)
  {
    var keys := SortedKeys(KeyUnion(sample));
    var cols := SchemaOf(sample, parse);
    assert DataSchema(cols).ColumnNames() == keys;
    forall i | 0 <= i < |cols|
      ensures var types := KeyTypes(sample, cols[i].name, parse);
        && cols[i].columnType in types
        && forall t | t in types :: Count(types, t) <= Count(types, cols[i].columnType)
    {
      assert keys[i] in keys;
      KeyTypesOccur(sample, keys[i], parse);
      var types := KeyTypes(sample, keys[i], parse);
      forall t | t in types ensures Count(types, t) <= Count(types, cols[i].columnType) {
        MajorityIsMostFrequent(types, t);
      }
    }
  }

  /** What the schema builder has gathered after the given objects: their key union,
      the types of each key's occurrences, and which keys had a `null` occurrence. */
  ghost predicate Recorded(objects: seq<seq<Member>>, parse: JsonReader, allKeys: set<string>,
                           keyTypes: map<string, seq<ColumnType>>, keyNullability: map<string, bool>)
  {
    && allKeys == KeyUnion(objects) && keyTypes.Keys == allKeys
    && (forall k | k in keyTypes :: keyTypes[k] == KeyTypes(objects, k, parse))
    && (forall k | k in keyNullability :: keyNullability[k])
    && (forall k :: k in keyNullability <==> KeyNullable(objects, k))
  }

  /** `buildSchemaFromSample`: flattens each sampled object and records its entries,
      then builds a column per key in sorted order. */
  method BuildSchema(sample: seq<seq<Member>>, parse: JsonReader) returns (columns: seq<ColumnInfo>)
    ensures columns == SchemaOf(sample, parse)
  {
    var allKeys: set<string> := {};
    var keyTypes: map<string, seq<ColumnType>> := map[];
    var keyNullability: map<string, bool> := map[];
    var i := 0;
    while i < |sample|
      invariant 0 <= i <= |sample|
      invariant Recorded(sample[..i], parse, allKeys, keyTypes, keyNullability)
    {
      var flat := FlattenObject(sample[i], "");
      ghost var before := sample[..i];
      ghost var keyTypes0 := keyTypes;
      ghost var keyNullability0 := keyNullability;
      allKeys, keyTypes, keyNullability := RecordObject(flat, v => InferFromValue(v, parse), allKeys, keyTypes, keyNullability);
      RecordedSnoc(before, sample[i], parse, keyTypes0, keyNullability0, allKeys, keyTypes, keyNullability);
      assert sample[..i + 1] == before + [sample[i]];
      i := i + 1;
    }
    assert sample[..|sample|] == sample;
    columns := ColumnsOfRecord(sample, parse, allKeys, keyTypes, keyNullability);
  }

  /** The types recorded for the entries `done` of a flattened object, on top of `keyTypes0`. */
  ghost predicate TypesRecorded(keyTypes: map<string, seq<ColumnType>>, keyTypes0: map<string, seq<ColumnType>>,
                                flat: map<string, Option<string>>, typeOf: Option<string> -> ColumnType, done: set<string>)
    requires done <= flat.Keys
  {
    && keyTypes.Keys == keyTypes0.Keys + done
    && forall k | k in keyTypes :: keyTypes[k] == (if k in keyTypes0 then keyTypes0[k] else [])
                                              + (if k in done then [typeOf(flat[k])] else [])
  }

  /** The `null` marks recorded for the entries `done`, on top of `keyNullability0`. */
  ghost predicate NullsRecorded(keyNullability: map<string, bool>, keyNullability0: map<string, bool>,
                                flat: map<string, Option<string>>, done: set<string>)
    requires done <= flat.Keys
  {
    && (forall k | k in keyNullability :: keyNullability[k])
    && forall k :: k in keyNullability <==> k in keyNullability0 || (k in done && flat[k].None?)
  }

  lemma NothingRecorded(keyTypes0: map<string, seq<ColumnType>>, keyNullability0: map<string, bool>,
                        flat: map<string, Option<string>>, typeOf: Option<string> -> ColumnType)
    requires forall k | k in keyNullability0 :: keyNullability0[k]
    ensures TypesRecorded(keyTypes0, keyTypes0, flat, typeOf, {})
    ensures NullsRecorded(keyNullability0, keyNullability0, flat, {})
  {
    UnionEmpty(keyTypes0.Keys);
  }

  /** Adding no keys leaves a key set as it is. */
  lemma UnionEmpty<T>(a: set<T>)
    ensures a + {} == a
  {
  }

  lemma TypesStep(keyTypes: map<string, seq<ColumnType>>, keyTypes0: map<string, seq<ColumnType>>,
                  flat: map<string, Option<string>>, typeOf: Option<string> -> ColumnType, done: set<string>, key: string)
    requires done <= flat.Keys && key in flat && key !in done
    requires TypesRecorded(keyTypes, keyTypes0, flat, typeOf, done)
    ensures TypesRecorded(keyTypes[key := (if key in keyTypes then keyTypes[key] else []) + [typeOf(flat[key])]],
                          keyTypes0, flat, typeOf, done + {key})
  {
  }

  lemma NullsStep(keyNullability: map<string, bool>, keyNullability0: map<string, bool>,
                  flat: map<string, Option<string>>, done: set<string>, key: string)
    requires done <= flat.Keys && key in flat && key !in done
    requires NullsRecorded(keyNullability, keyNullability0, flat, done)
    ensures NullsRecorded(if flat[key].None? then keyNullability[key := true] else keyNullability,
                          keyNullability0, flat, done + {key})
  {
  }

  /** One pass of the outer loop of `buildSchemaFromSample`: each entry of the
      flattened object adds its key, appends the type of its value (`typeOf` is
      `inferTypeFromValue`) and marks a `null` value. */
  method RecordObject(flat: map<string, Option<string>>, typeOf: Option<string> -> ColumnType, allKeys0: set<string>,
                      keyTypes0: map<string, seq<ColumnType>>, keyNullability0: map<string, bool>)
    returns (allKeys: set<string>, keyTypes: map<string, seq<ColumnType>>, keyNullability: map<string, bool>)
    requires forall k | k in keyNullability0 :: keyNullability0[k]
    ensures allKeys == allKeys0 + flat.Keys
    ensures TypesRecorded(keyTypes, keyTypes0, flat, typeOf, flat.Keys)
    ensures NullsRecorded(keyNullability, keyNullability0, flat, flat.Keys)
  {
    allKeys, keyTypes, keyNullability := allKeys0, keyTypes0, keyNullability0;
    var remaining := flat.Keys;
    ghost var done: set<string> := {};
    NothingRecorded(keyTypes0, keyNullability0, flat, typeOf);
    UnionEmpty(allKeys0);
    while remaining != {}
      invariant done + remaining == flat.Keys && done !! remaining
      invariant allKeys == allKeys0 + done
      invariant TypesRecorded(keyTypes, keyTypes0, flat, typeOf, done)
      invariant NullsRecorded(keyNullability, keyNullability0, flat, done)
      decreases |remaining|
    {
      var key :| key in remaining;
      var value := flat[key];
      allKeys := allKeys + {key};
      var valueType := typeOf(value);
      var known := if key in keyTypes then keyTypes[key] else [];
      TypesStep(keyTypes, keyTypes0, flat, typeOf, done, key);
      keyTypes := keyTypes[key := known + [valueType]];
      NullsStep(keyNullability, keyNullability0, flat, done, key);
      if value.None? {
        keyNullability := keyNullability[key := true];
      }
      MoveElement(done, remaining, flat.Keys, key);
      UnionAssoc(allKeys0, done, {key});
      remaining := remaining - {key};
      done := done + {key};
    }
  }

  /** Moving one element from `remaining` to `done` keeps the two a partition. */
  lemma MoveElement<T>(done: set<T>, remaining: set<T>, all: set<T>, x: T)
    requires done + remaining == all && done !! remaining && x in remaining
    ensures (done + {x}) + (remaining - {x}) == all && (done + {x}) !! (remaining - {x})
  {
  }

  /** Key sets can be united in either grouping. */
  lemma UnionAssoc<T>(a: set<T>, b: set<T>, c: set<T>)
    ensures (a + b) + c == a + (b + c)
  {
  }

  /** Recording one more object extends what was gathered to that object. */
  lemma RecordedSnoc(before: seq<seq<Member>>, obj: seq<Member>, parse: JsonReader,
                     keyTypes0: map<string, seq<ColumnType>>, keyNullability0: map<string, bool>, allKeys: set<string>,
                     keyTypes: map<string, seq<ColumnType>>, keyNullability: map<string, bool>)
    requires Recorded(before, parse, KeyUnion(before), keyTypes0, keyNullability0)
    requires allKeys == KeyUnion(before) + Flatten(obj, "").Keys
    requires TypesRecorded(keyTypes, keyTypes0, Flatten(obj, ""), v => InferFromValue(v, parse), Flatten(obj, "").Keys)
    requires NullsRecorded(keyNullability, keyNullability0, Flatten(obj, ""), Flatten(obj, "").Keys)
    ensures Recorded(before + [obj], parse, allKeys, keyTypes, keyNullability)
  {
    var after := before + [obj];
    assert after[..|before|] == before;
    forall k | k in keyTypes ensures keyTypes[k] == KeyTypes(after, k, parse) {
      if k !in keyTypes0 {
        KeyTypesOccur(before, k, parse);
      }
    }
  }

  /** The column the builder makes of a recorded key is the key's column. */
  lemma RecordedColumn(sample: seq<seq<Member>>, parse: JsonReader, allKeys: set<string>,
                       keyTypes: map<string, seq<ColumnType>>, keyNullability: map<string, bool>, key: string)
    requires Recorded(sample, parse, allKeys, keyTypes, keyNullability) && key in allKeys
    ensures var types := if key in keyTypes then keyTypes[key] else [UNKNOWN];
      var mostCommon := Majority(types);
      JsonColumn(key, sample, parse)
        == ColumnInfo(key, if mostCommon.Some? then mostCommon.value else STRING, key in keyNullability && keyNullability[key])
  {
    KeyTypesOccur(sample, key, parse);
  }

  /** The closing `map` of `buildSchemaFromSample`: for each key in sorted order, the
      majority of its recorded types (STRING when none) and its recorded nullability. */
  method ColumnsOfRecord(sample: seq<seq<Member>>, parse: JsonReader, allKeys: set<string>,
                         keyTypes: map<string, seq<ColumnType>>, keyNullability: map<string, bool>)
    returns (columns: seq<ColumnInfo>)
    requires Recorded(sample, parse, allKeys, keyTypes, keyNullability)
    ensures columns == SchemaOf(sample, parse)
  {
    var sorted := SortedKeys(allKeys);
    columns := [];
    var j := 0;
    while j < |sorted|
      invariant 0 <= j <= |sorted|
      invariant columns == ColumnsFor(sorted[..j], sample, parse)
    {
      var key := sorted[j];
      var types := if key in keyTypes then keyTypes[key] else [UNKNOWN];
      var mostCommon := Majority(types);
      var columnType := if mostCommon.Some? then mostCommon.value else STRING;
      var nullable := key in keyNullability && keyNullability[key];
      assert key in allKeys by { assert key in sorted; }
      RecordedColumn(sample, parse, allKeys, keyTypes, keyNullability, key);
      ColumnsForSnoc(sorted[..j], key, sample, parse);
      TakeSnoc(sorted, j);
      columns := columns + [ColumnInfo(key, columnType, nullable)];
      j := j + 1;
    }
    TakeAll(sorted);
  }

  lemma ColumnsForSnoc(keys: seq<string>, key: string, objects: seq<seq<Member>>, parse: JsonReader)
    ensures ColumnsFor(keys + [key], objects, parse) == ColumnsFor(keys, objects, parse) + [JsonColumn(key, objects, parse)]
  {
  }

  // ---------------------------------------------------------------------------
  // The flow
  // ---------------------------------------------------------------------------

  /** The parsed data once `n` objects are loaded: each row is one flattened object,
      the schema comes from the first objects. */
  function JsonData(objects: seq<seq<Member>>, parse: JsonReader, n: nat): ParsedData
    requires n <= |objects|
  {
    var schema := SchemaOf(Take(objects, SAMPLE_SIZE_FOR_SCHEMA), parse);
    var rows := seq(n, i requires 0 <= i < n => DataRow(Flatten(objects[i], "")));
    ParsedData(DataSchema(schema), rows, |objects|, n < |objects|)
  }

  /** The events once the schema is built: `take` of a negative count fails, otherwise
      the row reports and the success. */
  function LoadEvents(objects: seq<seq<Member>>, parse: JsonReader, maxRows: int): seq<ParseResult> {
    var rowsToParse := Min(maxRows, |objects|);
    if rowsToParse < 0 then [Error("Failed to parse JSON: " + NegativeTakeMessage(rowsToParse))]
    else RowProgress(rowsToParse, |objects|) + [Success(JsonData(objects, parse, rowsToParse))]
  }

  /** The events once the objects are read. */
  function ObjectEvents(objects: seq<seq<Member>>, parse: JsonReader, maxRows: int): seq<ParseResult> {
    if |objects| == 0 then [Error("No JSON objects found")]
    else
      [Progress(0, Some(|objects|), Some("Building schema..."))]
      + ([Progress(0, Some(|objects|), Some("Parsing rows..."))] + LoadEvents(objects, parse, maxRows))
  }

  /** The events `parse(content, maxRows)` emits. */
  function JsonEvents(content: string, parse: JsonReader, maxRows: int): seq<ParseResult> {
    if IsBlank(content) then [Error("File is empty")]
    else [Progress(0, None, Some("Detecting JSON format..."))] + ObjectEvents(ParseJsonContent(content, parse), parse, maxRows)
  }

  /** `parse`: reads the objects, builds the schema from the first ones, then loads
      the rows one object at a time with a progress report after every 100th. */
  method Parse(content: string, parse: JsonReader, maxRows: int) returns (events: seq<ParseResult>)
    ensures events == JsonEvents(content, parse, maxRows)
  {
    if IsBlank(content) {
      return [Error("File is empty")];
    }
    var detecting := Progress(0, None, Some("Detecting JSON format..."));
    var objects := ParseJsonContent(content, parse);
    if |objects| == 0 {
      return [detecting, Error("No JSON objects found")];
    }
    var totalRows := |objects|;
    var building := Progress(0, Some(totalRows), Some("Building schema..."));
    var columns := BuildSchema(Take(objects, SAMPLE_SIZE_FOR_SCHEMA), parse);
    var parsing := Progress(0, Some(totalRows), Some("Parsing rows..."));
    var loading := Load(objects, parse, DataSchema(columns), maxRows);
    events := [detecting] + ([building] + ([parsing] + loading));
  }

  /** The rest of `parse` once the schema is built. */
  method Load(objects: seq<seq<Member>>, parse: JsonReader, schema: DataSchema, maxRows: int) returns (events: seq<ParseResult>)
    requires schema == DataSchema(SchemaOf(Take(objects, SAMPLE_SIZE_FOR_SCHEMA), parse))
    ensures events == LoadEvents(objects, parse, maxRows)
  {
    var totalRows := |objects|;
    var rowsToParse := Min(maxRows, totalRows);
    if rowsToParse < 0 {
      return [Error("Failed to parse JSON: " + NegativeTakeMessage(rowsToParse))];
    }
    var rows;
    rows, events := LoadRows(objects, rowsToParse);
    assert rows == seq(rowsToParse, i requires 0 <= i < rowsToParse => DataRow(Flatten(objects[i], "")));
    var data := ParsedData(schema, rows, totalRows, rowsToParse < totalRows);
    events := events + [Success(data)];
  }

  /** The loop of `parse` over the first `n` objects, with a report after every 100th. */
  method LoadRows(objects: seq<seq<Member>>, n: nat) returns (rows: seq<DataRow>, events: seq<ParseResult>)
    requires n <= |objects|
    ensures |rows| == n && forall i | 0 <= i < n :: rows[i] == DataRow(Flatten(objects[i], ""))
    ensures events == RowProgress(n, |objects|)
  {
    events := [];
    rows := [];
    var index := 0;
    while index < n
      invariant 0 <= index <= n
      invariant |rows| == index && forall i | 0 <= i < index :: rows[i] == DataRow(Flatten(objects[i], ""))
      invariant events == RowProgress(index, |objects|)
    {
      var flatValues := FlattenObject(objects[index], "");
      rows := rows + [DataRow(flatValues)];
      if (index + 1) % 100 == 0 {
        events := events + [Progress(index + 1, Some(|objects|), None)];
      }
      index := index + 1;
    }
  }

  // ---------------------------------------------------------------------------
  // Properties of the flow
  // ---------------------------------------------------------------------------

  lemma LoadWellFormed(objects: seq<seq<Member>>, parse: JsonReader, maxRows: int)
    ensures WellFormed(LoadEvents(objects, parse, maxRows))
  {
    var n := Min(maxRows, |objects|);
    if n >= 0 {
      ThenTerminal(RowProgress(n, |objects|), Success(JsonData(objects, parse, n)));
    }
  }

  /** A parse always ends with exactly one success or error, after progress reports only. */
  lemma JsonWellFormed(content: string, parse: JsonReader, maxRows: int)
    ensures WellFormed(JsonEvents(content, parse, maxRows))
  {
    if !IsBlank(content) {
      var objects := ParseJsonContent(content, parse);
      if |objects| > 0 {
        var load := LoadEvents(objects, parse, maxRows);
        LoadWellFormed(objects, parse, maxRows);
        ReportThen(Progress(0, Some(|objects|), Some("Parsing rows...")), load);
        ReportThen(Progress(0, Some(|objects|), Some("Building schema...")),
                   [Progress(0, Some(|objects|), Some("Parsing rows..."))] + load);
      }
      ReportThen(Progress(0, None, Some("Detecting JSON format...")), ObjectEvents(objects, parse, maxRows));
    }
  }

  /** The parse fails exactly for blank content, for content without objects, and for
      a negative row limit, each with its own message. */
  lemma JsonErrors(content: string, parse: JsonReader, maxRows: int)
    ensures var events := JsonEvents(content, parse, maxRows);
      var objects := ParseJsonContent(content, parse);
      && (events[|events| - 1].Error? <==> IsBlank(content) || |objects| == 0 || maxRows < 0)
      && (IsBlank(content) ==> events == [Error("File is empty")])
      && (!IsBlank(content) && |objects| == 0 ==>
            events == [Progress(0, None, Some("Detecting JSON format...")), Error("No JSON objects found")])
      && (!IsBlank(content) && |objects| > 0 && maxRows < 0 ==>
            events[|events| - 1] == Error("Failed to parse JSON: " + NegativeTakeMessage(maxRows)))
  {
    JsonWellFormed(content, parse, maxRows);
    var objects := ParseJsonContent(content, parse);
    if !IsBlank(content) && |objects| > 0 {
      LoadWellFormed(objects, parse, maxRows);
      JsonLastEvent(content, parse, maxRows);
    }
  }

  /** With objects to load, the events are three reports and then those of the load. */
  lemma JsonLastEvent(content: string, parse: JsonReader, maxRows: int)
    requires !IsBlank(content) && |ParseJsonContent(content, parse)| > 0
    requires |LoadEvents(ParseJsonContent(content, parse), parse, maxRows)| > 0
    ensures var load := LoadEvents(ParseJsonContent(content, parse), parse, maxRows);
      var events := JsonEvents(content, parse, maxRows);
      && |events| == 3 + |load|
      && events[|events| - 1] == load[|load| - 1]
  {
    var objects := ParseJsonContent(content, parse);
    var load := LoadEvents(objects, parse, maxRows);
    var parsing := [Progress(0, Some(|objects|), Some("Parsing rows..."))] + load;
    var building := [Progress(0, Some(|objects|), Some("Building schema..."))] + parsing;
    assert JsonEvents(content, parse, maxRows) == [Progress(0, None, Some("Detecting JSON format..."))] + building;
    LastOfConcat([Progress(0, Some(|objects|), Some("Parsing rows..."))], load);
    LastOfConcat([Progress(0, Some(|objects|), Some("Building schema..."))], parsing);
    LastOfConcat([Progress(0, None, Some("Detecting JSON format..."))], building);
  }

  /** What a successful load holds. */
  lemma LoadSuccess(objects: seq<seq<Member>>, parse: JsonReader, maxRows: int)
    requires maxRows >= 0
    ensures var events := LoadEvents(objects, parse, maxRows);
      var loaded := Min(maxRows, |objects|);
      && |events| == 1 + loaded / 100
      && events[|events| - 1] == Success(JsonData(objects, parse, loaded))
  {
    RowProgressShape(Min(maxRows, |objects|), |objects|);
  }

  /** The data of a load: one row per loaded object, in order, each the flattened
      object; the row count is the object count; the sample flag says whether objects
      were left out; the schema lists the keys of the first ten objects in sorted
      order, none nullable. */
  lemma JsonDataShape(objects: seq<seq<Member>>, parse: JsonReader, loaded: nat)
    requires loaded <= |objects|
    ensures var data := JsonData(objects, parse, loaded);
      && data.totalRowCount == |objects|
      && data.LoadedRowCount() == loaded
      && (data.isSampled <==> data.LoadedRowCount() < data.totalRowCount)
      && IsSortedOf(data.schema.ColumnNames(), KeyUnion(Take(objects, SAMPLE_SIZE_FOR_SCHEMA)))
      && (forall c | c in data.schema.columns :: !c.nullable)
      && forall i | 0 <= i < loaded :: data.rows[i] == DataRow(Flatten(objects[i], ""))
  {
    var sample := Take(objects, SAMPLE_SIZE_FOR_SCHEMA);
    SchemaShape(sample, parse);
    var cols := SchemaOf(sample, parse);
    forall c | c in cols ensures !c.nullable {
      var k :| 0 <= k < |cols| && cols[k] == c;
      JsonNeverNullable(sample, SortedKeys(KeyUnion(sample))[k]);
    }
  }

  /** On success the events are three reports, one more report per 100 rows, and a
      final `Success` with the data of the first `min(maxRows, total)` objects, as the
      data lemma describes. */
  lemma JsonSuccess(content: string, parse: JsonReader, maxRows: int)
    requires !IsBlank(content) && |ParseJsonContent(content, parse)| > 0 && maxRows >= 0
    ensures var events := JsonEvents(content, parse, maxRows);
      var objects := ParseJsonContent(content, parse);
      var loaded := Min(maxRows, |objects|);
      && |events| == 4 + loaded / 100
      && events[|events| - 1] == Success(JsonData(objects, parse, loaded))
      && JsonData(objects, parse, loaded).totalRowCount == CountRows(content, parse)
  {
    var objects := ParseJsonContent(content, parse);
    LoadSuccess(objects, parse, maxRows);
    JsonLastEvent(content, parse, maxRows);
  }
}
