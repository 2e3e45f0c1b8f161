/** The JavaScript built-ins the middlewares lean on: `String.prototype.split`
    with a one-character separator, and the truthiness of JSON values. */
module JsText {
  import opened Wrappers

  /** Position of the first `c` in `s`, or `|s|` when there is none. */
  function IndexOf(s: string, c: char): (i: nat)
    ensures i <= |s|
    ensures i < |s| ==> s[i] == c
  {
    if s == [] then 0
    else if s[0] == c then 0
    else 1 + IndexOf(s[1..], c)
  }

  /** `IndexOf` finds the first occurrence, and finds one whenever there is
      one. */
  lemma {:induction false} IndexOfFirst(s: string, c: char)
    ensures c !in s[..IndexOf(s, c)]
    ensures IndexOf(s, c) < |s| <==> c in s
  {
    if s != [] && s[0] != c {
      IndexOfFirst(s[1..], c);
      assert s[..IndexOf(s, c)] == [s[0]] + s[1..][..IndexOf(s[1..], c)];
      assert s == [s[0]] + s[1..];
    }
  }

  /** `s.split(sep)`: the maximal separator-free segments of `s`, in order.
      An empty string gives one empty field; two adjacent separators give an
      empty field between them. */
  function Split(s: string, sep: char): (fields: seq<string>)
    ensures |fields| >= 1
    decreases |s|
  {
    var i := IndexOf(s, sep);
    if i == |s| then [s] else [s[..i]] + Split(s[i + 1..], sep)
  }

  /** No field of a split contains the separator. */
  lemma {:induction false} SplitFieldsFree(s: string, sep: char)
    ensures forall k :: 0 <= k < |Split(s, sep)| ==> sep !in Split(s, sep)[k]
    decreases |s|
  {
    var i := IndexOf(s, sep);
    IndexOfFirst(s, sep);
    if i < |s| {
      var tail := Split(s[i + 1..], sep);
      SplitFieldsFree(s[i + 1..], sep);
      assert Split(s, sep) == [s[..i]] + tail;
    }
  }

  /** `fields.join(sep)`, the inverse of `Split`. */
  function Join(fields: seq<string>, sep: char): string
  {
    if fields == [] then ""
    else if |fields| == 1 then fields[0]
    else fields[0] + [sep] + Join(fields[1..], sep)
  }

  /** Joining the fields of a split gives back the original string. */
  lemma {:induction false} JoinSplit(s: string, sep: char)
    ensures Join(Split(s, sep), sep) == s
    decreases |s|
  {
    var i := IndexOf(s, sep);
    if i < |s| {
      var tail := Split(s[i + 1..], sep);
      var fields := [s[..i]] + tail;
      assert Split(s, sep) == fields;
      assert fields[1..] == tail;
      assert Join(fields, sep) == s[..i] + [sep] + Join(tail, sep);
      JoinSplit(s[i + 1..], sep);
      assert s == s[..i] + [sep] + s[i + 1..];
    }
  }

  /** Splitting a join of separator-free fields gives back the fields. */
  lemma {:induction false} SplitJoin(fields: seq<string>, sep: char)
    requires |fields| >= 1
    requires forall k :: 0 <= k < |fields| ==> sep !in fields[k]
    ensures Split(Join(fields, sep), sep) == fields
  {
    if |fields| > 1 {
      var tail := fields[1..];
      assert forall k :: 0 <= k < |tail| ==> tail[k] == fields[k + 1];
      SplitJoin(tail, sep);
      SplitAfterWord(fields[0], Join(tail, sep), sep);
      assert fields == [fields[0]] + tail;
    }
  }

  /** A separator-free word, a separator, then `rest`: the word is the first
      field and the fields of `rest` follow. */
  lemma SplitAfterWord(w: string, rest: string, sep: char)
    requires sep !in w
    ensures Split(w + [sep] + rest, sep) == [w] + Split(rest, sep)
  {
    var s := w + [sep] + rest;
    assert s == w + ([sep] + rest);
    IndexOfPrefix(w, [sep] + rest, sep);
    assert s[..|w|] == w;
    assert s[|w| + 1..] == rest;
  }

  /** The first separator of `w + rest` is where `rest` starts, when `w` has
      none and `rest` is empty or begins with one. */
  lemma {:induction false} IndexOfPrefix(w: string, rest: string, sep: char)
    requires sep !in w
    requires rest == [] || rest[0] == sep
    ensures IndexOf(w + rest, sep) == |w|
  {
    if w != [] {
      assert (w + rest)[1..] == w[1..] + rest;
      IndexOfPrefix(w[1..], rest, sep);
    }
  }

  /** A split with a separator in the string: the text before the first
      separator, then the split of the text after it. */
  lemma SplitAtFirst(s: string, sep: char)
    requires IndexOf(s, sep) < |s|
    ensures Split(s, sep) == [s[..IndexOf(s, sep)]] + Split(s[IndexOf(s, sep) + 1..], sep)
  {
  }

  /** The first field of a split is the text up to the first separator:
      a prefix of the string followed by its end or by a separator. */
  lemma FirstFieldExtent(s: string, sep: char)
    ensures |Split(s, sep)[0]| <= |s|
    ensures s[..|Split(s, sep)[0]|] == Split(s, sep)[0]
    ensures |Split(s, sep)[0]| == |s| || s[|Split(s, sep)[0]|] == sep
  {
    var i := IndexOf(s, sep);
    if i < |s| {
      SplitAtFirst(s, sep);
    } else {
      assert Split(s, sep) == [s];
    }
  }

  /** With at least two fields there is a separator: the first field is the
      text before it, the second the first field of the text after it. */
  lemma SplitHead(s: string, sep: char)
    requires |Split(s, sep)| >= 2
    ensures IndexOf(s, sep) < |s|
    ensures Split(s, sep)[0] == s[..IndexOf(s, sep)]
    ensures Split(s, sep)[1] == Split(s[IndexOf(s, sep) + 1..], sep)[0]
  {
    SplitAtFirst(s, sep);
  }

  /** A string with at least two fields is its first field, a separator,
      its second field, and then its end or another separator. */
  lemma SecondFieldExtent(s: string, sep: char)
    requires |Split(s, sep)| >= 2
    ensures |Split(s, sep)[0]| + 1 + |Split(s, sep)[1]| <= |s|
    ensures s[..|Split(s, sep)[0]|] == Split(s, sep)[0]
    ensures s[|Split(s, sep)[0]|] == sep
    ensures s[|Split(s, sep)[0]| + 1..|Split(s, sep)[0]| + 1 + |Split(s, sep)[1]|] == Split(s, sep)[1]
    ensures |Split(s, sep)[0]| + 1 + |Split(s, sep)[1]| == |s| ||
            s[|Split(s, sep)[0]| + 1 + |Split(s, sep)[1]|] == sep
  {
    SplitHead(s, sep);
    var i := IndexOf(s, sep);
    var u := s[i + 1..];
    FirstFieldExtent(u, sep);
    TailSlice(s, i + 1, |Split(u, sep)[0]|);
  }

  /** A prefix of a suffix is a slice. */
  lemma TailSlice(s: string, j: nat, n: nat)
    requires j + n <= |s|
    ensures s[j..][..n] == s[j..j + n]
    ensures j + n < |s| ==> s[j..][n] == s[j + n]
  {
  }

  /** The first field of `w + rest` is `w` when `w` has no separator and
      `rest` is empty or begins with one. */
  lemma SplitFirstField(w: string, rest: string, sep: char)
    requires sep !in w
    requires rest == [] || rest[0] == sep
    ensures Split(w + rest, sep)[0] == w
  {
    IndexOfPrefix(w, rest, sep);
    var s := w + rest;
    assert s[..|w|] == w;
  }

  /** A JSON value as JavaScript sees it after parsing; `Undefined` stands
      for a property that is absent. */
  datatype JsonValue =
    | Undefined
    | Null
    | Bool(b: bool)
    | Number(n: real)
    | Str(s: string)
    | Composite   // an object or an array

  /** The falsy values of JavaScript that JSON can carry. */
  const Falsy: set<JsonValue> := {Undefined, Null, Bool(false), Number(0.0), Str("")}

  /** JavaScript truthiness: the falsy values are exactly `Falsy`. */
  predicate Truthy(v: JsonValue): (truthy: bool)
    ensures !truthy <==> v in Falsy
  {
    match v
    case Undefined => false
    case Null => false
    case Bool(b) => b
    case Number(n) => n != 0.0
    case Str(s) => s != ""
    case Composite => true
  }

  /** An optional string as a JavaScript value: `undefined` when absent. */
  function OptionalString(o: Option<string>): JsonValue
  {
    match o
    case None => Undefined
    case Some(s) => Str(s)
  }
}
