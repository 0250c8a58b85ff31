/** Helpers shared by the builder: type keys, the package-level scalar
    table and the Go-identifier-to-GraphQL-name conversion. */
module Tools {
  import opened Wrappers
  import opened Reflect
  import Schema

  /** `getKey`: the memo-table key of a type, its package path, a slash and
      its name. */
  function GetKey(t: TypeDesc): string {
    PkgPath(t) + "/" + Name(t)
  }

  /** The package path and name a key was made from: everything before and
      after its last slash. */
  function SplitKey(k: string): (string, string) {
    if k == [] then ("", "")
    else if k[|k| - 1] == '/' then (k[..|k| - 1], "")
    else (SplitKey(k[..|k| - 1]).0, SplitKey(k[..|k| - 1]).1 + [k[|k| - 1]])
  }

  lemma {:induction false} SplitKeyOfJoin(p: string, n: string)
    requires '/' !in n
    ensures SplitKey(p + "/" + n) == (p, n)
  {
    if n == [] {
      assert p + "/" + n == p + "/";
      assert (p + "/")[..|p|] == p;
    } else {
      var n' := n[..|n| - 1];
      assert (p + "/" + n)[..|p + "/" + n| - 1] == p + "/" + n';
      assert n' + [n[|n| - 1]] == n;
      SplitKeyOfJoin(p, n');
    }
  }

  /** A key determines the package path and the name it was made from, as
      long as the name has no slash (Go identifiers never do). */
  lemma KeyDeterminesPkgAndName(t: TypeDesc)
    requires '/' !in Name(t)
    ensures SplitKey(GetKey(t)) == (PkgPath(t), Name(t))
  {
    SplitKeyOfJoin(PkgPath(t), Name(t));
  }

  /** Types with the same package path and name share a key, and so do
      distinct struct types that agree on both: every anonymous struct type
      has the key "/". */
  lemma KeysCollide(t1: TypeDesc, t2: TypeDesc)
    requires PkgPath(t1) == PkgPath(t2) && Name(t1) == Name(t2)
    ensures GetKey(t1) == GetKey(t2)
  {
  }

  lemma AnonymousStructsShareKey(s1: nat, s2: nat)
    ensures GetKey(Struct("", "", s1)) == GetKey(Struct("", "", s2)) == "/"
  {
  }

  /** Every key has a slash, so no key equals a plain root-object name. */
  lemma KeyHasSlash(t: TypeDesc)
    ensures '/' in GetKey(t)
  {
    assert GetKey(t)[|PkgPath(t)|] == '/';
  }

  /** The package-level scalar table `scalarsMap`. */
  const ScalarsMap: map<string, Schema.Scalar> := map[
    "string" := Schema.String,
    "int" := Schema.Int,
    "int64" := Schema.Int,
    "float" := Schema.Float,
    "float64" := Schema.Float,
    "datetime" := Schema.DateTime,
    "bool" := Schema.Boolean
  ]

  /** Scalar lookup by type name in a given table, whatever the kind of the
      type; the builder's `isScalar` uses its own table. */
  function ScalarIn(table: map<string, Schema.Scalar>, t: TypeDesc): (r: Option<Schema.Scalar>)
    ensures r.Some? <==> Name(t) in table
    ensures r.Some? ==> r.value == table[Name(t)]
  {
    if Name(t) in table then Some(table[Name(t)]) else None
  }

  /** The package-level `isScalar`. */
  function IsScalar(t: TypeDesc): (r: Option<Schema.Scalar>)
    ensures r.Some? <==> Name(t) in ScalarsMap
  {
    ScalarIn(ScalarsMap, t)
  }

  /** Two types with the same name get the same answer, whatever their kinds. */
  lemma IsScalarIgnoresKind(t1: TypeDesc, t2: TypeDesc)
    requires Name(t1) == Name(t2)
    ensures IsScalar(t1) == IsScalar(t2)
  {
  }

  // ----- getFieldName: CamelCase to snake_case -----

  predicate IsUpper(c: char) { 'A' <= c <= 'Z' }
  predicate IsLower(c: char) { 'a' <= c <= 'z' }
  predicate IsDigit(c: char) { '0' <= c <= '9' }

  function ToLower(c: char): (d: char)
    ensures !IsUpper(d)
  {
    if IsUpper(c) then (c as int - 'A' as int + 'a' as int) as char else c
  }

  function Lower(s: string): (r: string)
    ensures |r| == |s|
  {
    if s == [] then [] else [ToLower(s[0])] + Lower(s[1..])
  }

  /** A word boundary falls before position i: an upper-case letter after a
      lower-case letter or digit, or the last capital of an acronym that
      starts a new word ("IDFilter" -> "id_filter"). */
  predicate BoundaryBefore(s: string, i: nat)
    requires i < |s|
  {
    && i > 0 && IsUpper(s[i])
    && (|| IsLower(s[i - 1]) || IsDigit(s[i - 1])
        || (IsUpper(s[i - 1]) && i + 1 < |s| && IsLower(s[i + 1])))
  }

  function SnakeFrom(s: string, i: nat): (r: string)
    requires i <= |s|
    ensures |r| >= |s| - i
    decreases |s| - i
  {
    if i == |s| then [] else SnakeChar(s, i) + SnakeFrom(s, i + 1)
  }

  /** The conversion of the character at position i, with the underscore
      that a word boundary puts before it. */
  function SnakeChar(s: string, i: nat): (r: string)
    requires i < |s|
    ensures 1 <= |r| <= 2
  {
    (if BoundaryBefore(s, i) then "_" else "") + [ToLower(s[i])]
  }

  lemma {:induction false} SnakeFromHasNoUpper(s: string, i: nat)
    requires i <= |s|
    ensures forall k :: 0 <= k < |SnakeFrom(s, i)| ==> !IsUpper(SnakeFrom(s, i)[k])
    decreases |s| - i
  {
    if i < |s| {
      SnakeFromHasNoUpper(s, i + 1);
    }
  }

  /** `getFieldName` (the snake-case conversion): lower case, with an
      underscore at every word boundary. */
  function ToSnake(s: string): string {
    SnakeFrom(s, 0)
  }

  /** The result has no upper-case letter and is at least as long as the
      name it converts. */
  lemma ToSnakeIsLowerCase(s: string)
    ensures forall k :: 0 <= k < |ToSnake(s)| ==> !IsUpper(ToSnake(s)[k])
    ensures |ToSnake(s)| >= |s|
  {
    SnakeFromHasNoUpper(s, 0);
  }

  function RemoveUnderscores(s: string): (r: string) {
    if s == [] then [] else (if s[0] == '_' then [] else [s[0]]) + RemoveUnderscores(s[1..])
  }

  lemma {:induction false} RemoveUnderscoresAppend(a: string, b: string)
    ensures RemoveUnderscores(a + b) == RemoveUnderscores(a) + RemoveUnderscores(b)
  {
    if a == [] {
      assert a + b == b;
    } else {
      assert (a + b)[1..] == a[1..] + b;
      RemoveUnderscoresAppend(a[1..], b);
    }
  }

  lemma {:induction false} SnakeFromOnlyInserts(s: string, i: nat)
    requires i <= |s|
    ensures RemoveUnderscores(SnakeFrom(s, i)) == RemoveUnderscores(Lower(s[i..]))
    decreases |s| - i
  {
    if i < |s| {
      RemoveUnderscoresAppend(SnakeChar(s, i), SnakeFrom(s, i + 1));
      SnakeFromOnlyInserts(s, i + 1);
      assert s[i..] == [s[i]] + s[i + 1..];
      assert Lower(s[i..]) == [ToLower(s[i])] + Lower(s[i + 1..]);
      RemoveUnderscoresAppend([ToLower(s[i])], Lower(s[i + 1..]));
    }
  }

  /** The conversion only lower-cases and inserts underscores: deleting the
      underscores from its result gives the lower-cased name with its own
      underscores deleted. */
  lemma ToSnakeOnlyInsertsUnderscores(s: string)
    ensures RemoveUnderscores(ToSnake(s)) == RemoveUnderscores(Lower(s))
  {
    SnakeFromOnlyInserts(s, 0);
    assert s[0..] == s;
  }

  lemma {:induction false} SnakeFromJoinLeft(w1: string, w2: string, i: nat)
    requires i <= |w1| && w1 != [] && !IsUpper(w1[|w1| - 1])
    ensures SnakeFrom(w1 + w2, i) == SnakeFrom(w1, i) + SnakeFrom(w1 + w2, |w1|)
    decreases |w1| - i
  {
    var s := w1 + w2;
    if i == |w1| {
      assert SnakeFrom(w1, i) == [];
    } else {
      SnakeFromJoinLeft(w1, w2, i + 1);
      assert SnakeChar(s, i) == SnakeChar(w1, i) by {
        assert s[i] == w1[i];
        assert i > 0 ==> s[i - 1] == w1[i - 1];
        assert i + 1 < |w1| ==> s[i + 1] == w1[i + 1];
      }
      calc {
        SnakeFrom(s, i);
        SnakeChar(s, i) + SnakeFrom(s, i + 1);
        SnakeChar(w1, i) + (SnakeFrom(w1, i + 1) + SnakeFrom(s, |w1|));
        (SnakeChar(w1, i) + SnakeFrom(w1, i + 1)) + SnakeFrom(s, |w1|);
        SnakeFrom(w1, i) + SnakeFrom(s, |w1|);
      }
    }
  }

  lemma {:induction false} SnakeFromJoinRight(w1: string, w2: string, j: nat)
    requires 1 <= j <= |w2|
    ensures SnakeFrom(w1 + w2, |w1| + j) == SnakeFrom(w2, j)
    decreases |w2| - j
  {
    if j < |w2| {
      SnakeFromJoinRight(w1, w2, j + 1);
      assert SnakeChar(w1 + w2, |w1| + j) == SnakeChar(w2, j) by {
        var s := w1 + w2;
        assert s[|w1| + j] == w2[j] && s[|w1| + j - 1] == w2[j - 1];
        assert |w1| + j + 1 < |s| ==> s[|w1| + j + 1] == w2[j + 1];
      }
    }
  }

  /** Joining a word that ends in a lower-case letter to one that starts
      with a capital puts exactly one underscore between their conversions. */
  lemma SnakeOfJoin(w1: string, w2: string)
    requires w1 != [] && IsLower(w1[|w1| - 1])
    requires w2 != [] && IsUpper(w2[0])
    ensures ToSnake(w1 + w2) == ToSnake(w1) + "_" + ToSnake(w2)
  {
    var s := w1 + w2;
    SnakeFromJoinLeft(w1, w2, 0);
    assert s[|w1|] == w2[0] && s[|w1| - 1] == w1[|w1| - 1];
    assert SnakeChar(s, |w1|) == "_" + SnakeChar(w2, 0);
    SnakeFromJoinRight(w1, w2, 1);
  }
}

/** The snake-case conversions the argument-reflection tests depend on. */
module SnakeCaseExamples {
  import opened Tools

  lemma SnakeLimit()
    ensures ToSnake("Limit") == "limit"
  {
    assert SnakeFrom("Limit", 0) == "limit";
  }

  lemma SnakeId()
    ensures ToSnake("ID") == "id"
  {
    assert SnakeFrom("ID", 0) == "id";
  }

  lemma SnakeTags()
    ensures ToSnake("Tags") == "tags"
  {
    assert SnakeFrom("Tags", 0) == "tags";
  }

  lemma SnakePointers()
    ensures ToSnake("Pointers") == "pointers"
  {
    assert SnakeFrom("Pointers", 0) == "pointers";
  }

  lemma SnakePointer()
    ensures ToSnake("Pointer") == "pointer"
  {
    assert SnakeFrom("Pointer", 0) == "pointer";
  }

  /** "TagsPointers" -> "tags_pointers" */
  lemma SnakeTagsPointers()
    ensures ToSnake("Tags" + "Pointers") == "tags" + "_" + "pointers"
  {
    SnakeTags();
    SnakePointers();
    SnakeOfJoin("Tags", "Pointers");
  }

  /** "PointerTagsPointer" -> "pointer_tags_pointer" */
  lemma SnakePointerTagsPointer()
    ensures ToSnake("Pointer" + "Tags" + "Pointer") == "pointer" + "_" + "tags" + "_" + "pointer"
  {
    SnakePointer();
    SnakeTags();
    SnakeOfJoin("Pointer", "Tags");
    SnakeOfJoin("Pointer" + "Tags", "Pointer");
  }
}
