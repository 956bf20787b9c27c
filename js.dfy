/**
 * The few pieces of JavaScript semantics the client's rules depend on:
 * truthiness and the `&&` / `||` operators, `String.prototype.trim`,
 * `toLowerCase` restricted to ASCII, and `String.prototype.includes`.
 */
module Js {
  import opened Wrappers

  /**
   * A JavaScript value as far as the client inspects it. `null` and
   * `undefined` are both falsy and are not told apart here.
   */
  datatype Value = Undefined | Bool(b: bool) | Str(s: string)

  /** JavaScript truthiness restricted to `Value`. */
  predicate Truthy(v: Value) {
    match v
    case Undefined => false
    case Bool(b) => b
    case Str(s) => s != ""
  }

  /** An optional string field of a decoded JSON object. */
  function OfString(field: Option<string>): Value {
    match field
    case None => Undefined
    case Some(s) => Str(s)
  }

  /** An optional boolean field of a decoded JSON object. */
  function OfBool(field: Option<bool>): Value {
    match field
    case None => Undefined
    case Some(b) => Bool(b)
  }

  /** `a && b`: yields its first operand when that is falsy, otherwise its second. */
  function And(a: Value, b: Value): (r: Value)
    ensures Truthy(r) <==> Truthy(a) && Truthy(b)
    ensures !Truthy(a) ==> r == a
    ensures Truthy(a) ==> r == b
  {
    if Truthy(a) then b else a
  }

  /** `message || fallback` where `message` is an optional string field of a server reply. */
  function OrElse(message: Option<string>, fallback: string): (r: string)
    ensures message.Some? && message.value != "" ==> r == message.value
    ensures message.None? || message.value == "" ==> r == fallback
    ensures fallback != "" ==> r != ""
  {
    if message.Some? && message.value != "" then message.value else fallback
  }

  /**
   * `s.length`: JavaScript counts UTF-16 code units, so a character outside
   * the Basic Multilingual Plane (a surrogate pair) counts twice.
   */
  function Utf16Length(s: string): (n: nat)
    ensures |s| <= n <= 2 * |s|
    ensures (forall i :: 0 <= i < |s| ==> (s[i] as int) < 0x1_0000) ==> n == |s|
  {
    if s == [] then 0
    else (if (s[0] as int) < 0x1_0000 then 1 else 2) + Utf16Length(s[1..])
  }

  /** The characters `String.prototype.trim` removes: WhiteSpace and LineTerminator. */
  predicate IsSpace(c: char) {
    var n := c as int;
    (0x09 <= n <= 0x0D) || n == 0x20 || n == 0xA0 || n == 0x1680 ||
    (0x2000 <= n <= 0x200A) || n == 0x2028 || n == 0x2029 || n == 0x202F ||
    n == 0x205F || n == 0x3000 || n == 0xFEFF
  }

  /** True when every character of `s` is white space (the empty string included). */
  ghost predicate AllSpace(s: string) {
    forall i :: 0 <= i < |s| ==> IsSpace(s[i])
  }

  /** The number of white-space characters at the front of `s`. */
  function LeadingSpaces(s: string): (k: nat)
    ensures k <= |s|
    ensures forall i :: 0 <= i < k ==> IsSpace(s[i])
    ensures k < |s| ==> !IsSpace(s[k])
  {
    if s == [] || !IsSpace(s[0]) then 0 else 1 + LeadingSpaces(s[1..])
  }

  /** The number of white-space characters at the end of `s`. */
  function TrailingSpaces(s: string): (k: nat)
    ensures k <= |s|
    ensures forall i :: |s| - k <= i < |s| ==> IsSpace(s[i])
    ensures k < |s| ==> !IsSpace(s[|s| - 1 - k])
  {
    if s == [] || !IsSpace(s[|s| - 1]) then 0 else 1 + TrailingSpaces(s[..|s| - 1])
  }

  /** `s.trim()`: `s` without its leading and trailing white space. */
  function Trim(s: string): (r: string)
    ensures |r| <= |s|
    ensures r != [] ==> !IsSpace(r[0]) && !IsSpace(r[|r| - 1])
  {
    var t := s[LeadingSpaces(s)..];
    t[..|t| - TrailingSpaces(t)]
  }

  /**
   * `Trim(s)` is the slice of `s` between its first and its last
   * non-space character, and is empty exactly when `s` is all white space.
   */
  lemma TrimSpec(s: string)
    ensures exists a, b :: TrimmedAt(s, a, b) && Trim(s) == s[a..b]
    ensures Trim(s) == "" <==> AllSpace(s)
  {
    var a := LeadingSpaces(s);
    var t := s[a..];
    var k := TrailingSpaces(t);
    var b := a + |t| - k;
    assert Trim(s) == s[a..b];
    if a == |s| {
      assert AllSpace(s);
    } else {
      assert !IsSpace(t[0]);
      assert k < |t|;
      assert !IsSpace(s[b - 1]) by { assert s[b - 1] == t[|t| - 1 - k]; }
      assert forall i :: b <= i < |s| ==> IsSpace(s[i]) by {
        forall i | b <= i < |s| ensures IsSpace(s[i]) { assert s[i] == t[i - a]; }
      }
      assert !AllSpace(s) by { assert !IsSpace(s[a]); }
    }
    assert TrimmedAt(s, a, b);
  }

  /** `s[a..b]` is `s` with exactly its leading and trailing white space cut off. */
  ghost predicate TrimmedAt(s: string, a: int, b: int) {
    0 <= a <= b <= |s| &&
    (forall i :: 0 <= i < a ==> IsSpace(s[i])) &&
    (forall i :: b <= i < |s| ==> IsSpace(s[i])) &&
    (a < b ==> !IsSpace(s[a]) && !IsSpace(s[b - 1]))
  }

  /** A string that neither starts nor ends with white space is its own trim. */
  lemma TrimUnchanged(s: string)
    requires s == [] || (!IsSpace(s[0]) && !IsSpace(s[|s| - 1]))
    ensures Trim(s) == s
  {
  }

  /** `String.prototype.trim() === ''`: the blank test the forms and the search use. */
  function IsBlank(s: string): (r: bool)
    ensures r <==> AllSpace(s)
  {
    TrimSpec(s);
    Trim(s) == ""
  }

  /** `toLowerCase` on one character, restricted to ASCII letters. */
  function LowerChar(c: char): (d: char)
    ensures 'A' <= c <= 'Z' ==> 'a' <= d <= 'z' && d as int == c as int + 32
    ensures !('A' <= c <= 'Z') ==> d == c
  {
    if 'A' <= c <= 'Z' then (c as int + 32) as char else c
  }

  /** `toLowerCase` restricted to ASCII letters: every other character is kept. */
  function Lower(s: string): (r: string)
    ensures |r| == |s|
    ensures forall i :: 0 <= i < |s| ==> r[i] == LowerChar(s[i])
  {
    seq(|s|, i requires 0 <= i < |s| => LowerChar(s[i]))
  }

  /** A string without ASCII capitals is its own lower-case form. */
  lemma LowerUnchanged(s: string)
    requires forall c :: c in s ==> !('A' <= c <= 'Z')
    ensures Lower(s) == s
  {
    forall i | 0 <= i < |s| ensures Lower(s)[i] == s[i] {
      assert s[i] in s;
    }
  }

  /** Lower-casing works character by character, so it distributes over concatenation. */
  lemma LowerAppend(a: string, b: string)
    ensures Lower(a + b) == Lower(a) + Lower(b)
  {
  }

  /** `needle` occurs in `hay` starting at index `i`. */
  ghost predicate OccursAt(hay: string, needle: string, i: int) {
    0 <= i && i + |needle| <= |hay| && hay[i..i + |needle|] == needle
  }

  /** `hay.includes(needle)`: some position of `hay` starts an occurrence of `needle`. */
  function Includes(hay: string, needle: string): (r: bool)
    ensures r <==> exists i :: OccursAt(hay, needle, i)
    decreases |hay|
  {
    if needle <= hay then
      assert OccursAt(hay, needle, 0);
      true
    else if hay == [] then
      assert forall i :: !OccursAt(hay, needle, i);
      false
    else
      var r := Includes(hay[1..], needle);
      assert forall i :: OccursAt(hay[1..], needle, i) ==> OccursAt(hay, needle, i + 1) by {
        forall i | OccursAt(hay[1..], needle, i) ensures OccursAt(hay, needle, i + 1) {
          assert hay[i + 1..i + 1 + |needle|] == hay[1..][i..i + |needle|];
        }
      }
      assert forall i :: OccursAt(hay, needle, i) ==> OccursAt(hay[1..], needle, i - 1) by {
        forall i | OccursAt(hay, needle, i) ensures OccursAt(hay[1..], needle, i - 1) {
          assert i != 0;
          assert hay[i..i + |needle|] == hay[1..][i - 1..i - 1 + |needle|];
        }
      }
      r
  }
}
