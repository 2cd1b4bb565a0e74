/** The small part of Python's built-in behaviour that the ingestion script
    relies on: dictionary lookup, `dict.get`, string `+`, `str.split` and
    `str.lower`. */
module Python {

  /** A value or the exception that was raised instead. */
  datatype Result<+T, +E> = Ok(value: T) | Err(error: E) {
    predicate IsFailure() { Err? }

    function PropagateFailure<U>(): Result<U, E>
      requires Err?
    {
      Err(error)
    }

    function Extract(): T
      requires Ok?
    {
      value
    }
  }

  /** A field value of one dataset row. */
  datatype Value = Null | Bool(b: bool) | Int(i: int) | Str(s: string) | List(items: seq<Value>)

  /** The exceptions the script's expressions can raise. */
  datatype Exception = KeyError(key: string) | TypeError | IndexError

  /** A dataset row: field name to value. */
  type Row = map<string, Value>

  /** Subscripting a row: raises KeyError when the key is absent. */
  function Subscript(row: Row, key: string): Result<Value, Exception>
  {
    if key in row then Ok(row[key]) else Err(KeyError(key))
  }

  /** Looking a key up with a default: never raises. */
  function Get(row: Row, key: string, default: Value): Value
  {
    if key in row then row[key] else default
  }

  /** Python's `+` where at least one operand is a `str`: it concatenates
      when both are `str` and raises TypeError otherwise. */
  function Concat(a: Value, b: Value): Result<string, Exception>
  {
    if a.Str? && b.Str? then Ok(a.s + b.s) else Err(TypeError)
  }

  /** Joining parts with a one-character separator. */
  function Join(parts: seq<string>, sep: char): string
  {
    if parts == [] then ""
    else if |parts| == 1 then parts[0]
    else parts[0] + [sep] + Join(parts[1..], sep)
  }

  /** Splitting at a one-character separator: the pieces between the
      separators, keeping empty ones, so never an empty list. */
  function Split(s: string, sep: char): (parts: seq<string>)
    ensures |parts| >= 1
    ensures forall k :: 0 <= k < |parts| ==> sep !in parts[k]
    decreases |s|
  {
    if s == [] then [""]
    else
      var rest := Split(s[1..], sep);
      if s[0] == sep then [""] + rest
      else [[s[0]] + rest[0]] + rest[1..]
  }

  /** Joining the pieces of a split with its separator gives the string
      back. */
  lemma {:induction false} SplitJoin(s: string, sep: char)
    ensures Join(Split(s, sep), sep) == s
    decreases |s|
  {
    if s != [] {
      var rest := Split(s[1..], sep);
      SplitJoin(s[1..], sep);
      assert s == [s[0]] + s[1..];
      if s[0] != sep {
        assert (s[1..] == rest[0]) || (|rest| > 1 && s[1..] == rest[0] + [sep] + Join(rest[1..], sep));
      }
    }
  }

  /** Lower-casing one character, on the ASCII range; other characters are
      left alone. */
  function LowerChar(c: char): char
  {
    if 'A' <= c <= 'Z' then (c as int - 'A' as int + 'a' as int) as char else c
  }

  /** Lower-casing a string, character by character. */
  function Lower(s: string): (lowered: string)
    ensures |lowered| == |s|
    ensures forall k :: 0 <= k < |s| ==> lowered[k] == LowerChar(s[k])
  {
    if s == [] then [] else [LowerChar(s[0])] + Lower(s[1..])
  }

  /** Lower-casing leaves no upper-case letter, and adds no `/` to a string
      without one. */
  lemma LoweredCharacters(s: string)
    ensures var lowered := Lower(s);
      && ('/' !in s ==> '/' !in lowered)
      && forall k :: 0 <= k < |lowered| ==> !('A' <= lowered[k] <= 'Z')
  {
    var lowered := Lower(s);
    if '/' !in s {
      forall k | 0 <= k < |lowered| ensures lowered[k] != '/' {
        assert s[k] != '/';
      }
    }
  }

  /** A string without upper-case letters is its own lower-case form. */
  lemma LowerOfLowercase(s: string)
    requires forall k :: 0 <= k < |s| ==> !('A' <= s[k] <= 'Z')
    ensures Lower(s) == s
  {
  }

  /** Lower-casing twice is lower-casing once. */
  lemma LowerIdempotent(s: string)
    ensures Lower(Lower(s)) == Lower(s)
  {
  }

  /** The last element of a split: everything after the last separator. */
  lemma {:induction false} JoinLast(parts: seq<string>, sep: char)
    requires |parts| >= 2
    ensures Join(parts, sep) == Join(parts[..|parts| - 1], sep) + [sep] + parts[|parts| - 1]
    decreases |parts|
  {
    if |parts| > 2 {
      JoinLast(parts[1..], sep);
      assert parts[1..][..|parts| - 2] == parts[..|parts| - 1][1..];
    }
  }

  /** Splitting at a separator that is in the string splits the two sides
      independently. */
  lemma {:induction false} SplitAround(a: string, b: string, sep: char)
    ensures Split(a + [sep] + b, sep) == Split(a, sep) + Split(b, sep)
    decreases |a|
  {
    var s := a + [sep] + b;
    if a == [] {
      assert s[1..] == b;
    } else {
      assert s[1..] == a[1..] + [sep] + b;
      SplitAround(a[1..], b, sep);
    }
  }

  /** A string without the separator splits into itself alone. */
  lemma {:induction false} SplitWithoutSeparator(s: string, sep: char)
    requires sep !in s
    ensures Split(s, sep) == [s]
    decreases |s|
  {
    if s != [] {
      assert sep !in s[1..];
      SplitWithoutSeparator(s[1..], sep);
      assert s == [s[0]] + s[1..];
    }
  }
}
