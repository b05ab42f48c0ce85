/** A submitted form: field name to text, the shape of the request data the views pass in. */
module Forms {

  type Form = map<string, string>

  /** A validator's result: field name (or a dedicated key) to a message; empty means valid. */
  type Errors = map<string, string>

  /** `data.get(key, default)`. */
  function Get(data: Form, key: string, default: string): string {
    if key in data then data[key] else default
  }

  /** `data.get(key, "")`: a missing field reads as the empty text. */
  function Field(data: Form, key: string): (v: string)
    ensures v != "" ==> key in data && data[key] == v
  {
    Get(data, key, "")
  }

  /** A field is filled when it is present with a non-empty value. */
  predicate Filled(data: Form, key: string) {
    Field(data, key) != ""
  }

  /** `data.get(key, "") or current`: the submitted value if filled, else the current one. */
  function Pick(data: Form, key: string, current: string): string {
    if Filled(data, key) then data[key] else current
  }

  /** `str.count(c)`: the number of occurrences of `c` in `s`. */
  function Count(s: string, c: char): nat {
    if s == [] then 0 else (if s[0] == c then 1 else 0) + Count(s[1..], c)
  }

  lemma {:induction false} CountZero(s: string, c: char)
    ensures Count(s, c) == 0 <==> c !in s
  {
    if s != [] {
      CountZero(s[1..], c);
      assert c in s <==> s[0] == c || c in s[1..];
    }
  }
}
