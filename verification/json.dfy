/** Decoded JSON values and the open string-keyed mapping the analysis is carried in.
    The decoder itself (`json.loads`) is not modelled: it is a parameter. */
module Json {
  import opened Wrappers

  /** A decoded JSON value. Numbers are integers only. */
  datatype Value =
    | Null
    | Bool(b: bool)
    | Num(n: int)
    | Str(s: string)
    | Arr(items: seq<Value>)
    | Obj(fields: map<string, Value>)

  /** A decoded JSON object: Python's `dict` with string keys. */
  type Object = map<string, Value>

  /** `json.loads` applied to text that starts with `{`: any success is an object.
      `None` stands for a `JSONDecodeError`. */
  type Decoder = string -> Option<Object>

  /** The decoder raises on the empty text, as `json.loads("")` does. */
  predicate RejectsEmpty(decode: Decoder) {
    decode("") == None
  }

  /** `key` is absent or holds a string, so `a.get(key, d)` is a string. */
  predicate TextOrAbsent(a: Object, key: string) {
    key !in a || a[key].Str?
  }

  /** Every element of `items` is a string. */
  predicate AllStr(items: seq<Value>) {
    forall k :: 0 <= k < |items| ==> items[k].Str?
  }

  /** `key` is absent or holds a list of strings, so `a.get(key, [])` is one. */
  predicate ListOrAbsent(a: Object, key: string) {
    key !in a || (a[key].Arr? && AllStr(a[key].items))
  }

  /** `a.get(key, default)` for a text field. */
  function GetText(a: Object, key: string, default: string): (t: string)
    requires TextOrAbsent(a, key)
    ensures key !in a ==> t == default
    ensures key in a ==> a[key] == Str(t)
  {
    if key in a then a[key].s else default
  }

  /** `a.get(key, [])` for a list field, as the strings it holds. */
  function GetList(a: Object, key: string): (xs: seq<string>)
    requires ListOrAbsent(a, key)
    ensures key !in a ==> xs == []
    ensures key in a ==> |xs| == |a[key].items| &&
                         forall k :: 0 <= k < |xs| ==> a[key].items[k] == Str(xs[k])
  {
    if key in a then
      var items := a[key].items;
      seq(|items|, k requires 0 <= k < |items| => items[k].s)
    else []
  }

  /** The fields the narration, the report and the result panel read hold the types
      the analysis prompt asks for: text where text is expected, lists of strings
      where lists are expected. */
  predicate Conforms(a: Object) {
    && TextOrAbsent(a, "cavity_stage")
    && TextOrAbsent(a, "severity_level")
    && TextOrAbsent(a, "emergency_level")
    && TextOrAbsent(a, "when_to_see_dentist")
    && ListOrAbsent(a, "visible_issues")
    && ListOrAbsent(a, "possible_causes")
    && ListOrAbsent(a, "recommended_treatments")
    && ListOrAbsent(a, "prevention_tips")
    && ListOrAbsent(a, "home_care_instructions")
  }

  /** The text fields every view reads, with the defaults the source uses when a key is missing. */
  function Stage(a: Object): string requires Conforms(a) { GetText(a, "cavity_stage", "Unknown") }
  function Severity(a: Object): string requires Conforms(a) { GetText(a, "severity_level", "Unknown") }
  function EmergencyLevel(a: Object): string requires Conforms(a) { GetText(a, "emergency_level", "None") }
  function Timeline(a: Object): string requires Conforms(a) { GetText(a, "when_to_see_dentist", "As soon as possible") }
}
