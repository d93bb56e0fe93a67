/** Outcomes shared by every module: the source's `None`-or-value results and its exceptions. */
module Wrappers {
  datatype Option<+T> = None | Some(value: T)

  datatype Result<+T, +E> = Success(value: T) | Failure(error: E)
}

/** JSON values as the Python and TypeScript code receives them. Objects are maps: key order is never
    observed by the projection. Numbers keep Python's split between integers and floats. */
module Json {
  datatype Json =
    | Null
    | Bool(b: bool)
    | Int(n: int)
    | Real(r: real)
    | Str(s: string)
    | Arr(items: seq<Json>)
    | Obj(fields: map<string, Json>)
  {
    /** Python truthiness: `bool(value)`. */
    predicate Truthy() {
      match this
      case Null => false
      case Bool(b) => b
      case Int(n) => n != 0
      case Real(r) => r != 0.0
      case Str(s) => s != ""
      case Arr(items) => items != []
      case Obj(fields) => fields != map[]
    }
  }

  /** `d.get(key)`: the value, or `None` when the key is absent. */
  function Get(d: map<string, Json>, key: string): Json {
    if key in d then d[key] else Null
  }

  /** `part in text`, on strings. */
  predicate Contains(text: string, part: string) {
    part <= text || (text != "" && Contains(text[1..], part))
  }

  /** The part stands somewhere in the text. */
  lemma {:induction false} ContainsIff(text: string, part: string)
    ensures Contains(text, part) <==> exists i :: 0 <= i <= |text| && part <= text[i..]
  {
    assert text[0..] == text;
    if text != "" {
      ContainsIff(text[1..], part);
      if Contains(text[1..], part) {
        var i :| 0 <= i <= |text[1..]| && part <= text[1..][i..];
        assert text[1..][i..] == text[i + 1..];
      }
      if exists i :: 0 <= i <= |text| && part <= text[i..] {
        var i :| 0 <= i <= |text| && part <= text[i..];
        if i > 0 {
          assert text[1..][i - 1..] == text[i..];
        }
      }
    }
  }
}
