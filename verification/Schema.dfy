/** Schema evolution of `delta_lake.py`: which declared columns to add, and when the table cannot be evolved. */
module Schema {
  import opened Files

  // ---- Type names -----------------------------------------------------------------------------

  /** What Python's `strip` takes away. */
  predicate IsSpace(c: char) {
    || c == ' ' || '\t' <= c <= '\r' || '\U{1C}' <= c <= '\U{1F}' || c == '\U{85}' || c == '\U{A0}' || c == '\U{1680}'
    || '\U{2000}' <= c <= '\U{200A}' || c == '\U{2028}' || c == '\U{2029}' || c == '\U{202F}' || c == '\U{205F}'
    || c == '\U{3000}'
  }

  function StripLeft(s: string): string {
    if s != "" && IsSpace(s[0]) then StripLeft(s[1..]) else s
  }

  function StripRight(s: string): string {
    if s != "" && IsSpace(s[|s| - 1]) then StripRight(s[..|s| - 1]) else s
  }

  function Strip(s: string): string { StripRight(StripLeft(s)) }

  function StripQuestionMarks(s: string): string {
    if s != "" && s[|s| - 1] == '?' then StripQuestionMarks(s[..|s| - 1]) else s
  }

  function LowerChar(c: char): char {
    if 'A' <= c <= 'Z' then (c as int + 32) as char else c
  }

  function Lower(s: string): (r: string)
    ensures |r| == |s|
  {
    seq(|s|, i requires 0 <= i < |s| => LowerChar(s[i]))
  }

  lemma {:induction false} StripLeftIs(blanks: string, s: string)
    requires (forall i :: 0 <= i < |blanks| ==> IsSpace(blanks[i])) && (s == "" || !IsSpace(s[0]))
    ensures StripLeft(blanks + s) == s
  {
    hide IsSpace;
    if blanks == "" {
      assert blanks + s == s;
    } else {
      assert (blanks + s)[1..] == blanks[1..] + s;
      StripLeftIs(blanks[1..], s);
    }
  }

  lemma {:induction false} StripRightIs(s: string, blanks: string)
    requires (forall i :: 0 <= i < |blanks| ==> IsSpace(blanks[i])) && (s == "" || !IsSpace(s[|s| - 1]))
    ensures StripRight(s + blanks) == s
  {
    hide IsSpace;
    if blanks == "" {
      assert s + blanks == s;
    } else {
      assert (s + blanks)[..|s + blanks| - 1] == s + blanks[..|blanks| - 1];
      StripRightIs(s, blanks[..|blanks| - 1]);
    }
  }

  /** Exactly the blanks around a text are stripped. */
  lemma StripIs(before: string, s: string, after: string)
    requires forall i :: 0 <= i < |before| ==> IsSpace(before[i])
    requires forall i :: 0 <= i < |after| ==> IsSpace(after[i])
    requires s == "" || (!IsSpace(s[0]) && !IsSpace(s[|s| - 1]))
    ensures Strip(before + s + after) == s
  {
    hide IsSpace, StripLeft, StripRight;
    if s == "" {
      StripLeftIs(before + after, "");
      assert before + s + after == before + after + "";
      StripRightIs("", "");
      assert "" + "" == "";
    } else {
      StripLeftIs(before, s + after);
      assert before + s + after == before + (s + after);
      StripRightIs(s, after);
    }
  }

  ghost predicate IsBlank(s: string) {
    forall i :: 0 <= i < |s| ==> s[i] == ' ' || s[i] == '\t' || s[i] == '\n' || s[i] == '\r'
  }

  /** Spaces, tabs and line breaks around a name make no difference; within it they do. */
  lemma BlanksAreIgnored(before: string, s: string, after: string)
    requires IsBlank(before) && IsBlank(after)
    requires s != "" && !IsSpace(s[0]) && !IsSpace(s[|s| - 1])
    ensures TypeBase(before + s + after) == TypeBase(s) && Strip(s) == s
  {
    hide Strip, StripQuestionMarks, Lower;
    StripIs(before, s, after);
    StripIs("", s, "");
    assert "" + s + "" == s;
  }

  /** So are exactly the question marks at the end. */
  lemma {:induction false} StripQuestionMarksIs(s: string, marks: string)
    requires (forall i :: 0 <= i < |marks| ==> marks[i] == '?') && (s == "" || s[|s| - 1] != '?')
    ensures StripQuestionMarks(s + marks) == s
  {
    if marks == "" {
      assert s + marks == s;
    } else {
      assert (s + marks)[..|s + marks| - 1] == s + marks[..|marks| - 1];
      StripQuestionMarksIs(s, marks[..|marks| - 1]);
    }
  }

  const UPPER := "ABCDEFGHIJKLMNOPQRSTUVWXYZ"
  const LOWER := "abcdefghijklmnopqrstuvwxyz"

  /** Letters change to the small letter of the same place, and nothing else changes. */
  lemma LettersAreLowered(s: string, i: nat, k: nat)
    requires i < |s|
    ensures k < 26 && s[i] == UPPER[k] ==> Lower(s)[i] == LOWER[k]
    ensures s[i] !in UPPER ==> Lower(s)[i] == s[i]
  {
    if 'A' <= s[i] <= 'Z' {
      assert s[i] == UPPER[s[i] as int - 65];
    }
  }

  function BeforeParenthesis(s: string): string {
    if s == "" || s[0] == '(' then "" else [s[0]] + BeforeParenthesis(s[1..])
  }

  const CANONICAL_TYPES: map<string, string> := map[
    "string" := "STRING", "varchar" := "STRING", "char" := "STRING", "text" := "STRING",
    "bool" := "BOOL", "boolean" := "BOOL",
    "sbyte" := "INT8", "tinyint" := "INT8", "int8" := "INT8",
    "short" := "INT16", "smallint" := "INT16", "int16" := "INT16",
    "int" := "INT32", "integer" := "INT32", "int32" := "INT32",
    "long" := "INT64", "bigint" := "INT64", "int64" := "INT64",
    "float" := "FLOAT32", "real" := "FLOAT32", "float4" := "FLOAT32",
    "double" := "FLOAT64", "float8" := "FLOAT64",
    "datetime" := "DATETIME", "date" := "DATE",
    "byte[]" := "BINARY", "binary" := "BINARY", "varbinary" := "BINARY", "blob" := "BINARY", "bytea" := "BINARY"]

  /** A type name without blanks around it and question marks behind it, in lower case. */
  function TypeBase(raw: string): string {
    Lower(Strip(StripQuestionMarks(Strip(raw))))
  }

  function CanonicalBase(base: string): Option<string> {
    if "timestamp" <= base then Some("DATETIME")
    else if "decimal" <= base || "numeric" <= base then Some("DECIMAL")
    else
      var name := if '(' in base then Strip(BeforeParenthesis(base)) else base;
      if name in CANONICAL_TYPES then Some(CANONICAL_TYPES[name]) else None
  }

  /** `canonical_type`; `None` for a type it does not know. */
  function CanonicalType(raw: string): Option<string> {
    if raw == "" then None else CanonicalBase(TypeBase(raw))
  }

  /** Two spellings differ only when both are known and name different types. */
  predicate TypesAgree(a: string, b: string) {
    var x, y := CanonicalType(a), CanonicalType(b);
    x.None? || y.None? || x == y
  }

  lemma {:induction false} StripLeftSnoc(s: string, c: char)
    requires !IsSpace(c)
    ensures StripLeft(s + [c]) == StripLeft(s) + [c]
  {
    if s == "" {
      assert "" + [c] == [c];
    } else {
      assert (s + [c])[1..] == s[1..] + [c];
      StripLeftSnoc(s[1..], c);
    }
  }

  /** Blanks at the end stay there when blanks in front are stripped, unless nothing else is left. */
  lemma {:induction false} StripLeftKeepsEnd(s: string)
    ensures StripLeft(s) != "" ==> s != "" && StripLeft(s)[|StripLeft(s)| - 1] == s[|s| - 1]
    ensures StripLeft(s) == "" ==> StripRight(s) == ""
  {
    if s != "" && IsSpace(s[0]) {
      StripLeftKeepsEnd(s[1..]);
      StripRightOfBlanks(s);
    }
  }

  lemma {:induction false} StripRightOfBlanks(s: string)
    ensures s != "" && IsSpace(s[0]) && StripRight(s[1..]) == "" ==> StripRight(s) == ""
    decreases |s|
  {
    if |s| > 1 && IsSpace(s[0]) && IsSpace(s[|s| - 1]) {
      assert s[..|s| - 1][1..] == s[1..][..|s| - 2];
      StripRightOfBlanks(s[..|s| - 1]);
    }
  }

  lemma {:induction false} StripRightShape(s: string)
    ensures StripRight(s) <= s
    ensures StripRight(s) != "" ==> !IsSpace(StripRight(s)[|StripRight(s)| - 1])
    ensures s != "" && !IsSpace(s[|s| - 1]) ==> StripRight(s) == s
  {
    if s != "" {
      StripRightShape(s[..|s| - 1]);
    }
  }

  lemma {:induction false} StripsNoLonger(s: string)
    ensures |StripLeft(s)| <= |s| && |StripQuestionMarks(s)| <= |s|
    ensures s != "" && s[|s| - 1] == '?' ==> |StripQuestionMarks(s)| < |s|
    decreases |s|
  {
    if s != "" {
      StripsNoLonger(s[1..]);
      StripsNoLonger(s[..|s| - 1]);
    }
  }

  /** The name has blanks at its end, and a question mark before them. */
  predicate HidesQuestionMark(s: string) {
    && s != "" && IsSpace(s[|s| - 1])
    && StripRight(StripLeft(s)) != "" && StripRight(StripLeft(s))[|StripRight(StripLeft(s))| - 1] == '?'
  }

  /** What is left of `s + "?"` and of `s`, by the end of `s`. */
  lemma QuestionMarkBase(s: string)
    ensures TypeBase(s + "?") == Lower(Strip(StripQuestionMarks(StripLeft(s))))
  {
    hide Lower;
    var left := StripLeft(s);
    StripLeftSnoc(s, '?');
    assert s + "?" == s + ['?'];
    StripRightShape(left + ['?']);
    assert Strip(s + "?") == left + ['?'];
    assert (left + ['?'])[..|left|] == left;
  }

  lemma StripLeftTwice(s: string)
    ensures StripLeft(StripLeft(s)) == StripLeft(s)
  {}

  lemma StripLeftOfPrefix(s: string, p: string)
    requires p <= s && StripLeft(s) == s
    ensures StripLeft(p) == p
  {
    if p != "" {
      StripsNoLonger(s[1..]);
    }
  }

  /** A trailing question mark changes nothing but exactly when blanks hide another one before it. */
  lemma QuestionMarkIsStrippedIff(s: string)
    ensures TypeBase(s + "?") == TypeBase(s) <==> !HidesQuestionMark(s)
  {
    var left, trimmed := StripLeft(s), Strip(s);
    QuestionMarkBase(s);
    StripLeftKeepsEnd(s);
    StripRightShape(left);
    StripLeftTwice(s);
    StripLeftOfPrefix(left, trimmed);
    if s == "" || !IsSpace(s[|s| - 1]) || left == "" {
      assert trimmed == left;
    } else {
      assert StripQuestionMarks(left) == left;
      assert Strip(left) == trimmed;
      if !HidesQuestionMark(s) {
        StripRightShape(trimmed);
        assert StripQuestionMarks(trimmed) == trimmed && Strip(trimmed) == trimmed;
      } else {
        StripsNoLonger(trimmed);
        var bare := StripQuestionMarks(trimmed);
        StripsNoLonger(bare);
        StripRightShape(StripLeft(bare));
        assert |TypeBase(s)| < |TypeBase(s + "?")|;
      }
    }
  }

  lemma EmptyIsUnknown()
    ensures CanonicalBase(TypeBase("")) == None
  {
    assert TypeBase("") == "";
  }

  /** A trailing question mark makes a type nullable and changes nothing else. */
  lemma NullabilityIsIgnored(s: string)
    requires !HidesQuestionMark(s)
    ensures CanonicalType(s + "?") == CanonicalType(s)
  {
    hide TypeBase, CanonicalBase, HidesQuestionMark;
    QuestionMarkIsStrippedIff(s);
    EmptyIsUnknown();
  }

  lemma LowerKeepsBlanks(c: char)
    ensures IsSpace(LowerChar(c)) == IsSpace(c) && (LowerChar(c) == '?' <==> c == '?')
  {}

  lemma {:induction false} LowerKeepsStripLeft(s: string)
    ensures StripLeft(Lower(s)) == Lower(StripLeft(s))
  {
    if s != "" {
      hide IsSpace, LowerChar;
      LowerKeepsBlanks(s[0]);
      LowerKeepsStripLeft(s[1..]);
      assert Lower(s)[1..] == Lower(s[1..]);
    }
  }

  lemma {:induction false} LowerKeepsStripRight(s: string)
    ensures StripRight(Lower(s)) == Lower(StripRight(s))
    ensures StripQuestionMarks(Lower(s)) == Lower(StripQuestionMarks(s))
  {
    if s != "" {
      hide IsSpace, LowerChar;
      var n := |s| - 1;
      LowerKeepsBlanks(s[n]);
      LowerKeepsStripRight(s[..n]);
      assert Lower(s)[..n] == Lower(s[..n]);
    }
  }

  lemma LowerKeepsStrip(s: string)
    ensures Strip(Lower(s)) == Lower(Strip(s))
  {
    hide Lower, StripLeft, StripRight;
    LowerKeepsStripLeft(s);
    LowerKeepsStripRight(StripLeft(s));
  }

  lemma LowerTwice(s: string)
    ensures Lower(Lower(s)) == Lower(s)
  {}

  lemma LowerKeepsBase(s: string)
    ensures TypeBase(Lower(s)) == TypeBase(s)
  {
    hide Lower, Strip, StripQuestionMarks;
    var stripped := Strip(s);
    LowerKeepsStrip(s);
    LowerKeepsStripRight(stripped);
    LowerKeepsStrip(StripQuestionMarks(stripped));
    LowerTwice(Strip(StripQuestionMarks(stripped)));
  }

  /** Upper and lower case spell the same type. */
  lemma CaseIsIgnored(s: string)
    ensures CanonicalType(Lower(s)) == CanonicalType(s)
  {
    hide TypeBase, CanonicalBase;
    LowerKeepsBase(s);
  }

  // ---- Which spellings agree ------------------------------------------------------------------

  /** Spellings of one type stand together; no two groups agree. */
  const SPELLINGS: seq<set<string>> := [
    {"string", "varchar", "char", "text"}, {"bool", "boolean"}, {"sbyte", "tinyint", "int8"}, {"short", "smallint", "int16"},
    {"int", "integer", "int32"}, {"long", "bigint", "int64"}, {"float", "real", "float4"}, {"double", "float8"}, {"datetime"},
    {"date"}, {"byte[]", "binary", "varbinary", "blob", "bytea"}]

  /** A non-empty name of lower-case letters, digits and brackets. */
  ghost predicate IsPlain(s: string) {
    s != "" && forall i :: 0 <= i < |s| ==> 'a' <= s[i] <= 'z' || '0' <= s[i] <= '9' || s[i] == '[' || s[i] == ']'
  }

  /** None of the names that are recognised by how they begin. */
  ghost predicate IsExact(s: string) {
    !("timestamp" <= s) && !("decimal" <= s) && !("numeric" <= s)
  }

  lemma NothingToTrim(s: string)
    requires s != "" && !IsSpace(s[0]) && !IsSpace(s[|s| - 1]) && s[|s| - 1] != '?'
    ensures Strip(s) == s && TypeBase(s) == Lower(s)
  {
    StripRightShape(s);
  }

  lemma PlainIsBase(s: string)
    requires IsPlain(s)
    ensures s != "" && TypeBase(s) == s && Strip(s) == s && '(' !in s
  {
    assert 'a' <= s[0] <= 'z' || '0' <= s[0] <= '9' || s[0] == '[' || s[0] == ']';
    var last := s[|s| - 1];
    assert 'a' <= last <= 'z' || '0' <= last <= '9' || last == '[' || last == ']';
    NothingToTrim(s);
    assert forall i :: 0 <= i < |s| ==> LowerChar(s[i]) == s[i];
    assert Lower(s) == s;
  }

  /** The token of each group. */
  const TOKENS: seq<string> := [
    "STRING", "BOOL", "INT8", "INT16", "INT32", "INT64", "FLOAT32", "FLOAT64", "DATETIME", "DATE", "BINARY"]

  lemma NarrowSpellingIsKnown(s: string, i: nat)
    requires i < 5 && s in SPELLINGS[i]
    ensures s in CANONICAL_TYPES && CANONICAL_TYPES[s] == TOKENS[i]
  {}

  lemma WideSpellingIsKnown(s: string, i: nat)
    requires 5 <= i < |SPELLINGS| && s in SPELLINGS[i]
    ensures s in CANONICAL_TYPES && CANONICAL_TYPES[s] == TOKENS[i]
  {}

  lemma SpellingIsPlain(s: string, i: nat)
    requires i < |SPELLINGS| && s in SPELLINGS[i]
    ensures IsPlain(s)
  {}

  lemma SpellingIsExact(s: string, i: nat)
    requires i < |SPELLINGS| && s in SPELLINGS[i]
    ensures IsExact(s)
  {
    hide IsExact;
    PrefixNeeds(s);
  }

  lemma PrefixNeeds(s: string)
    ensures !IsExact(s) ==>
      && |s| >= 7
      && ((s[0] == 't' && s[1] == 'i' && |s| >= 9) || (s[0] == 'd' && s[1] == 'e') || (s[0] == 'n' && s[1] == 'u'))
  {
    if "timestamp" <= s {
      assert s[0] == "timestamp"[0] && s[1] == "timestamp"[1];
    } else if "decimal" <= s {
      assert s[0] == "decimal"[0] && s[1] == "decimal"[1];
    } else if "numeric" <= s {
      assert s[0] == "numeric"[0] && s[1] == "numeric"[1];
    }
  }

  lemma TypeOfSpelling(s: string, i: nat)
    requires i < |SPELLINGS| && s in SPELLINGS[i]
    ensures CanonicalType(s) == Some(TOKENS[i])
  {
    hide TypeBase, Strip;
    if i < 5 {
      NarrowSpellingIsKnown(s, i);
    } else {
      WideSpellingIsKnown(s, i);
    }
    SpellingIsPlain(s, i);
    SpellingIsExact(s, i);
    PlainIsBase(s);
  }

  lemma TokensDiffer(i: nat, j: nat)
    requires i < |TOKENS| && j < |TOKENS| && i != j
    ensures TOKENS[i] != TOKENS[j]
  {}

  /** Two known spellings agree exactly when they stand in one group. */
  lemma SpellingsAgreeIff(a: string, b: string, i: nat, j: nat)
    requires i < |SPELLINGS| && a in SPELLINGS[i] && j < |SPELLINGS| && b in SPELLINGS[j]
    ensures TypesAgree(a, b) <==> i == j
  {
    hide CanonicalType;
    TypeOfSpelling(a, i);
    TypeOfSpelling(b, j);
    if i != j {
      TokensDiffer(i, j);
    }
  }

  lemma OnlySpellingsAreKnown(s: string)
    requires s in CANONICAL_TYPES
    ensures exists i :: 0 <= i < |SPELLINGS| && s in SPELLINGS[i]
  {
    var groups := SPELLINGS;
    assert s in groups[0] || s in groups[1] || s in groups[2] || s in groups[3] || s in groups[4] || s in groups[5]
        || s in groups[6] || s in groups[7] || s in groups[8] || s in groups[9] || s in groups[10];
  }

  /** A name in no group agrees with every type. */
  lemma UnknownAgrees(a: string, b: string)
    requires IsPlain(b) && IsExact(b) && forall i :: 0 <= i < |SPELLINGS| ==> b !in SPELLINGS[i]
    ensures TypesAgree(a, b) && TypesAgree(b, a)
  {
    hide TypeBase, Strip;
    PlainIsBase(b);
    if b in CANONICAL_TYPES {
      OnlySpellingsAreKnown(b);
    }
  }

  lemma {:induction false} BeforeParenthesisIs(name: string, rest: string)
    requires '(' !in name
    ensures BeforeParenthesis(name + "(" + rest) == name
  {
    if name == "" {
      assert name + "(" + rest == "(" + rest;
    } else {
      assert (name + "(" + rest)[1..] == name[1..] + "(" + rest;
      BeforeParenthesisIs(name[1..], rest);
    }
  }

  lemma BaseWithParameters(name: string, parameters: string)
    requires IsPlain(name)
    ensures TypeBase(name + "(" + parameters + ")") == name + "(" + Lower(parameters + ")")
  {
    var s := name + "(" + parameters + ")";
    assert s[0] == name[0] && s[|s| - 1] == ')';
    assert 'a' <= name[0] <= 'z' || '0' <= name[0] <= '9' || name[0] == '[' || name[0] == ']';
    NothingToTrim(s);
    hide Strip, TypeBase;
    assert s[|name|] == '(';
    forall i | 0 <= i < |s| ensures Lower(s)[i] == (name + "(" + Lower(parameters + ")"))[i] {
      if i < |name| {
        assert s[i] == name[i] && LowerChar(name[i]) == name[i];
      } else if i > |name| {
        assert s[i] == (parameters + ")")[i - |name| - 1];
      }
    }
  }

  /** Parameters in parentheses make no difference. */
  lemma ParametersAreIgnored(name: string, parameters: string)
    requires IsPlain(name) && IsExact(name)
    ensures CanonicalType(name + "(" + parameters + ")") == CanonicalType(name)
  {
    hide Strip, TypeBase, BeforeParenthesis, Lower, IsPlain;
    var rest := Lower(parameters + ")");
    PlainIsBase(name);
    BaseWithParameters(name, parameters);
    BeforeParenthesisIs(name, rest);
    PrefixBeforeParenthesis("timestamp", name, rest);
    PrefixBeforeParenthesis("decimal", name, rest);
    PrefixBeforeParenthesis("numeric", name, rest);
    assert (name + "(" + rest)[|name|] == '(';
  }

  lemma PrefixBeforeParenthesis(prefix: string, name: string, rest: string)
    requires '(' !in prefix
    ensures prefix <= name + "(" + rest ==> prefix <= name
  {
    var s := name + "(" + rest;
    if |prefix| <= |name| {
      assert s[..|prefix|] == name[..|prefix|];
    } else {
      assert s[|name|] == '(' && prefix[|name|] in prefix;
    }
  }

  /** Every name that begins with "timestamp", "decimal" or "numeric", with a size or time zone or without. */
  lemma PrefixedTypes(rest: string)
    ensures CanonicalType("timestamp" + rest) == Some("DATETIME")
    ensures CanonicalType("decimal" + rest) == Some("DECIMAL") && CanonicalType("numeric" + rest) == Some("DECIMAL")
  {
    hide TypeBase;
    BaseKeepsPrefix("timestamp", rest);
    BaseKeepsPrefix("decimal", rest);
    BaseKeepsPrefix("numeric", rest);
    assert TypeBase("decimal" + rest)[0] == 'd' && TypeBase("numeric" + rest)[0] == 'n';
    assert "timestamp"[0] == 't' && "decimal"[0] == 'd';
  }

  lemma {:induction false} StripRightKeepsPrefix(prefix: string, s: string)
    requires prefix != "" && prefix <= s && !IsSpace(prefix[|prefix| - 1]) && prefix[|prefix| - 1] != '?'
    ensures prefix <= StripRight(s) && prefix <= StripQuestionMarks(s)
    decreases |s|
  {
    if |s| > |prefix| {
      assert prefix <= s[..|s| - 1];
      StripRightKeepsPrefix(prefix, s[..|s| - 1]);
    } else {
      assert s == prefix;
    }
  }

  lemma BaseKeepsPrefix(prefix: string, rest: string)
    requires IsPlain(prefix)
    ensures prefix <= TypeBase(prefix + rest)
  {
    var s := prefix + rest;
    var first, last := prefix[0], prefix[|prefix| - 1];
    assert 'a' <= first <= 'z' || '0' <= first <= '9' || first == '[' || first == ']';
    assert 'a' <= last <= 'z' || '0' <= last <= '9' || last == '[' || last == ']';
    assert prefix <= s;
    StripKeepsPrefix(prefix, s);
    StripRightKeepsPrefix(prefix, Strip(s));
    StripKeepsPrefix(prefix, StripQuestionMarks(Strip(s)));
    var trimmed := Strip(StripQuestionMarks(Strip(s)));
    assert forall i :: 0 <= i < |prefix| ==> trimmed[i] == prefix[i] && LowerChar(prefix[i]) == prefix[i];
    assert Lower(trimmed)[..|prefix|] == prefix;
  }

  lemma StripKeepsPrefix(prefix: string, s: string)
    requires prefix != "" && prefix <= s && !IsSpace(prefix[0])
    requires !IsSpace(prefix[|prefix| - 1]) && prefix[|prefix| - 1] != '?'
    ensures prefix <= Strip(s)
  {
    assert s[0] == prefix[0];
    StripRightKeepsPrefix(prefix, s);
  }

  // ---- Columns by case-insensitive name -------------------------------------------------------

  datatype Column = Column(name: string, dataType: string) {
    function Key(): string { Lower(name) }
  }

  function KeysOf(columns: seq<Column>): set<string> {
    set c | c in columns :: c.Key()
  }

  /** The column a dictionary keyed by lower-case name ends up with: the last one of that name. */
  function Effective(columns: seq<Column>, key: string): (c: Column)
    requires key in KeysOf(columns)
    ensures c in columns && c.Key() == key
  {
    var n := |columns| - 1;
    assert columns == columns[..n] + [columns[n]];
    if columns[n].Key() == key then columns[n] else Effective(columns[..n], key)
  }

  /** The keys in the order such a dictionary lists them: by first occurrence. */
  function KeyOrder(columns: seq<Column>): seq<string> {
    if columns == [] then []
    else
      var n := |columns| - 1;
      var rest := KeyOrder(columns[..n]);
      if columns[n].Key() in rest then rest else rest + [columns[n].Key()]
  }

  lemma KeysSnoc(columns: seq<Column>, c: Column)
    ensures KeysOf(columns + [c]) == KeysOf(columns) + {c.Key()}
  {}

  lemma {:induction false} KeyOrderIsKeys(columns: seq<Column>)
    ensures forall k :: k in KeyOrder(columns) <==> k in KeysOf(columns)
    ensures forall i, j :: 0 <= i < j < |KeyOrder(columns)| ==> KeyOrder(columns)[i] != KeyOrder(columns)[j]
  {
    if columns != [] {
      var n := |columns| - 1;
      KeyOrderIsKeys(columns[..n]);
      KeysSnoc(columns[..n], columns[n]);
      assert columns == columns[..n] + [columns[n]];
    }
  }

  /** Of columns with equal names the last counts. */
  lemma {:induction false} LastColumnCounts(columns: seq<Column>, i: nat)
    requires i < |columns| && forall k :: i < k < |columns| ==> columns[k].Key() != columns[i].Key()
    ensures columns[i].Key() in KeysOf(columns) && Effective(columns, columns[i].Key()) == columns[i]
    decreases |columns|
  {
    var n := |columns| - 1;
    assert columns == columns[..n] + [columns[n]];
    if i < n {
      LastColumnCounts(columns[..n], i);
      KeysSnoc(columns[..n], columns[n]);
    }
  }

  /** The column at `i` is the first of its name. */
  ghost predicate IsFirst(columns: seq<Column>, i: nat)
    requires i < |columns|
  {
    forall k :: 0 <= k < i ==> columns[k].Key() != columns[i].Key()
  }

  /** Names come in the order of their first columns. */
  lemma {:induction false} KeysByFirstColumn(columns: seq<Column>, i: nat, j: nat)
    requires i < j < |columns| && IsFirst(columns, i) && IsFirst(columns, j)
    ensures exists a, b :: 0 <= a < b < |KeyOrder(columns)|
                           && KeyOrder(columns)[a] == columns[i].Key() && KeyOrder(columns)[b] == columns[j].Key()
    decreases |columns|
  {
    var n := |columns| - 1;
    var rest := KeyOrder(columns[..n]);
    KeyOrderIsKeys(columns[..n]);
    if j < n {
      KeysByFirstColumn(columns[..n], i, j);
      var a, b :| 0 <= a < b < |rest| && rest[a] == columns[i].Key() && rest[b] == columns[j].Key();
      assert KeyOrder(columns)[a] == rest[a] && KeyOrder(columns)[b] == rest[b];
    } else {
      assert columns[..n][i] in columns[..n] && columns[i].Key() in KeysOf(columns[..n]);
      assert columns[i].Key() in rest;
      var a :| 0 <= a < |rest| && rest[a] == columns[i].Key();
      assert columns[n].Key() !in rest;
      assert KeyOrder(columns)[a] == rest[a] && KeyOrder(columns)[|rest|] == columns[n].Key();
    }
  }

  /** A dictionary `{c["name"].lower(): c for c in columns}`. */
  ghost predicate Indexes(byLower: map<string, Column>, columns: seq<Column>) {
    && byLower.Keys == KeysOf(columns)
    && forall k :: k in KeysOf(columns) ==> byLower[k] == Effective(columns, k)
  }

  lemma IndexSnoc(byLower: map<string, Column>, columns: seq<Column>, c: Column)
    requires Indexes(byLower, columns)
    ensures Indexes(byLower[c.Key() := c], columns + [c])
  {
    KeysSnoc(columns, c);
    assert (columns + [c])[..|columns|] == columns;
  }

  method IndexByLower(columns: seq<Column>) returns (keys: seq<string>, byLower: map<string, Column>)
    ensures keys == KeyOrder(columns) && Indexes(byLower, columns)
  {
    keys, byLower := [], map[];
    assert Indexes(byLower, columns[..0]);
    hide Indexes;
    for i := 0 to |columns|
      invariant keys == KeyOrder(columns[..i]) && Indexes(byLower, columns[..i])
    {
      assert columns[..i + 1] == columns[..i] + [columns[i]];
      assert columns[..i + 1][..i] == columns[..i];
      IndexSnoc(byLower, columns[..i], columns[i]);
      var key := columns[i].Key();
      if key !in keys {
        keys := keys + [key];
      }
      byLower := byLower[key := columns[i]];
    }
    assert columns[..|columns|] == columns;
  }

  // ---- The diff -------------------------------------------------------------------------------

  datatype Diff = Additions(columns: seq<Column>) | Incompatible(missing: seq<Column>, mismatched: seq<Column>)

  /** The declared columns, among those of `keys`, that the table lacks. */
  function Added(keys: seq<string>, declared: seq<Column>, existing: seq<Column>, ignored: set<string>): seq<Column>
    requires forall k :: k in keys ==> k in KeysOf(declared)
  {
    if keys == [] then []
    else
      var n := |keys| - 1;
      Added(keys[..n], declared, existing, ignored) +
      (if keys[n] in ignored || keys[n] in KeysOf(existing) then [] else [Effective(declared, keys[n])])
  }

  /** A table column is declared with a type that agrees. */
  predicate IsKept(declared: seq<Column>, existing: seq<Column>, key: string)
    requires key in KeysOf(existing)
  {
    key in KeysOf(declared) && TypesAgree(Effective(declared, key).dataType, Effective(existing, key).dataType)
  }

  /** Every table column that is not a partition column is declared with a type that agrees. */
  ghost predicate CanEvolve(declared: seq<Column>, existing: seq<Column>, ignored: set<string>) {
    forall k :: k in KeysOf(existing) && k !in ignored ==> IsKept(declared, existing, k)
  }

  function LowerAll(names: seq<string>): set<string> {
    set n | n in names :: Lower(n)
  }

  /** The first loop: columns to add and columns whose type changed. */
  method CompareDeclared(keys: seq<string>, declared: seq<Column>, existing: seq<Column>, ignored: set<string>,
                         declaredBy: map<string, Column>, existingBy: map<string, Column>)
    returns (toAdd: seq<Column>, mismatched: seq<Column>)
    requires keys == KeyOrder(declared) && Indexes(declaredBy, declared) && Indexes(existingBy, existing)
    requires forall k :: k in keys ==> k in KeysOf(declared)
    ensures toAdd == Added(keys, declared, existing, ignored)
    ensures mismatched == [] <==>
      forall k :: k in keys && k !in ignored && k in KeysOf(existing) ==> IsKept(declared, existing, k)
    ensures forall c :: c in mismatched <==>
      exists k :: k in keys && k !in ignored && k in KeysOf(existing) && !IsKept(declared, existing, k) && c == Effective(declared, k)
  {
    toAdd, mismatched := [], [];
    hide TypesAgree, KeyOrder, KeysOf, Effective;
    for i := 0 to |keys|
      invariant toAdd == Added(keys[..i], declared, existing, ignored)
      invariant mismatched == [] <==>
        forall k :: k in keys[..i] && k !in ignored && k in KeysOf(existing) ==> IsKept(declared, existing, k)
      invariant forall c :: c in mismatched <==>
        exists k :: k in keys[..i] && k !in ignored && k in KeysOf(existing) && !IsKept(declared, existing, k)
                    && c == Effective(declared, k)
    {
      var key := keys[i];
      assert keys[..i + 1] == keys[..i] + [key];
      assert keys[..i + 1][..i] == keys[..i];
      assert key in keys[..i + 1];
      if key in ignored {
        continue;
      }
      if key !in existingBy {
        toAdd := toAdd + [declaredBy[key]];
        continue;
      }
      if !TypesAgree(declaredBy[key].dataType, existingBy[key].dataType) {
        mismatched := mismatched + [declaredBy[key]];
      }
    }
    assert keys[..|keys|] == keys;
  }

  /** Table columns the model does not declare. */
  method MissingColumns(keys: seq<string>, existing: seq<Column>, declared: seq<Column>, ignored: set<string>,
                        existingBy: map<string, Column>, declaredBy: map<string, Column>)
    returns (missing: seq<Column>)
    requires Indexes(declaredBy, declared) && Indexes(existingBy, existing)
    requires forall k :: k in keys ==> k in KeysOf(existing)
    ensures missing == [] <==> forall k :: k in keys && k !in ignored ==> k in KeysOf(declared)
    ensures forall c :: c in missing <==>
      exists k :: k in keys && k !in ignored && k !in KeysOf(declared) && c == Effective(existing, k)
  {
    missing := [];
    hide KeysOf, Effective;
    for i := 0 to |keys|
      invariant missing == [] <==> forall k :: k in keys[..i] && k !in ignored ==> k in KeysOf(declared)
      invariant forall c :: c in missing <==>
        exists k :: k in keys[..i] && k !in ignored && k !in KeysOf(declared) && c == Effective(existing, k)
    {
      assert keys[..i + 1] == keys[..i] + [keys[i]];
      assert keys[i] in keys[..i + 1];
      if keys[i] !in declaredBy && keys[i] !in ignored {
        missing := missing + [existingBy[keys[i]]];
      }
    }
    assert keys[..|keys|] == keys;
  }

  /**
   * `diff_schema_for_evolution`: it succeeds exactly when every table column outside the partition columns
   * is declared with a type that agrees, and then returns the declared columns the table lacks.
   */
  method DiffSchemaForEvolution(declared: seq<Column>, existing: seq<Column>, partitionColumns: seq<string>) returns (diff: Diff)
    ensures diff.Additions? <==> CanEvolve(declared, existing, LowerAll(partitionColumns))
    ensures forall k :: k in KeyOrder(declared) ==> k in KeysOf(declared)
    ensures diff.Additions? ==> diff.columns == Added(KeyOrder(declared), declared, existing, LowerAll(partitionColumns))
    ensures diff.Incompatible? ==>
      && (forall c :: c in diff.missing <==>
            exists k :: k in KeysOf(existing) && k !in LowerAll(partitionColumns) && k !in KeysOf(declared)
                        && c == Effective(existing, k))
      && (forall c :: c in diff.mismatched <==>
            exists k :: k in KeysOf(declared) && k in KeysOf(existing) && k !in LowerAll(partitionColumns)
                        && !TypesAgree(Effective(declared, k).dataType, Effective(existing, k).dataType)
                        && c == Effective(declared, k))
  {
    var ignored := LowerAll(partitionColumns);
    var existingKeys, existingBy := IndexByLower(existing);
    var declaredKeys, declaredBy := IndexByLower(declared);
    KeyOrderIsKeys(declared);
    KeyOrderIsKeys(existing);
    hide TypesAgree, KeyOrder, KeysOf, Effective, Added, Indexes;
    var toAdd, mismatched := CompareDeclared(declaredKeys, declared, existing, ignored, declaredBy, existingBy);
    var missing := MissingColumns(existingKeys, existing, declared, ignored, existingBy, declaredBy);
    if missing != [] || mismatched != [] {
      return Incompatible(missing, mismatched);
    }
    return Additions(toAdd);
  }

  // ---- Convergence ----------------------------------------------------------------------------

  /** What is added: each declared column once, unless it is a partition column or the table has it. */
  lemma {:induction false} AddedMembers(keys: seq<string>, declared: seq<Column>, existing: seq<Column>, ignored: set<string>)
    requires forall k :: k in keys ==> k in KeysOf(declared)
    ensures forall c :: c in Added(keys, declared, existing, ignored) <==>
      c.Key() in keys && c.Key() !in ignored && c.Key() !in KeysOf(existing) && c == Effective(declared, c.Key())
  {
    hide KeysOf;
    if keys != [] {
      var n := |keys| - 1;
      AddedMembers(keys[..n], declared, existing, ignored);
      assert keys == keys[..n] + [keys[n]];
    }
  }

  /** The added columns as the table reports them back: same names, types in the engine's spelling. */
  function Spelled(columns: seq<Column>, spell: string -> string): seq<Column> {
    seq(|columns|, i requires 0 <= i < |columns| => Column(columns[i].name, spell(columns[i].dataType)))
  }

  lemma {:induction false} EffectiveConcat(a: seq<Column>, b: seq<Column>, key: string)
    requires key in KeysOf(a + b)
    ensures key in KeysOf(b) ==> Effective(a + b, key) == Effective(b, key)
    ensures key !in KeysOf(b) ==> key in KeysOf(a) && Effective(a + b, key) == Effective(a, key)
    decreases |b|
  {
    if b == [] {
      assert a + b == a;
    } else {
      var n := |b| - 1;
      assert (a + b)[..|a + b| - 1] == a + b[..n];
      KeysSnoc(a + b[..n], b[n]);
      KeysSnoc(b[..n], b[n]);
      assert b == b[..n] + [b[n]] && a + b == (a + b[..n]) + [b[n]];
      if b[n].Key() != key {
        EffectiveConcat(a, b[..n], key);
      }
    }
  }

  lemma KeysConcat(a: seq<Column>, b: seq<Column>)
    ensures KeysOf(a + b) == KeysOf(a) + KeysOf(b)
  {}

  /** A reported column is an added one in the engine's spelling. */
  lemma SpelledSource(columns: seq<Column>, spell: string -> string, key: string) returns (c: Column)
    requires key in KeysOf(Spelled(columns, spell))
    ensures c in columns && c.Key() == key
    ensures Effective(Spelled(columns, spell), key).dataType == spell(c.dataType)
  {
    var e := Effective(Spelled(columns, spell), key);
    var i :| 0 <= i < |columns| && Spelled(columns, spell)[i] == e;
    c := columns[i];
  }

  lemma SpelledKeys(columns: seq<Column>, spell: string -> string)
    ensures forall c :: c in columns ==> c.Key() in KeysOf(Spelled(columns, spell))
  {
    forall c | c in columns ensures c.Key() in KeysOf(Spelled(columns, spell)) {
      var i :| 0 <= i < |columns| && columns[i] == c;
      assert Spelled(columns, spell)[i] in Spelled(columns, spell);
    }
  }

  /**
   * Evolving once is enough: when the diff succeeds, then after its columns are added - whatever agreeing
   * spelling the table reports their types in - a second diff succeeds and adds nothing.
   */
  lemma DiffConverges(declared: seq<Column>, existing: seq<Column>, ignored: set<string>, spell: string -> string)
    requires CanEvolve(declared, existing, ignored)
    requires forall t :: TypesAgree(t, spell(t))
    ensures forall k :: k in KeyOrder(declared) ==> k in KeysOf(declared)
    ensures
      var evolved := existing + Spelled(Added(KeyOrder(declared), declared, existing, ignored), spell);
      CanEvolve(declared, evolved, ignored) && Added(KeyOrder(declared), declared, evolved, ignored) == []
  {
    hide TypesAgree, KeyOrder, KeysOf, Effective, Spelled, Added;
    KeyOrderIsKeys(declared);
    var keys := KeyOrder(declared);
    var added := Added(keys, declared, existing, ignored);
    var reported := Spelled(added, spell);
    var evolved := existing + reported;
    AddedMembers(keys, declared, existing, ignored);
    SpelledKeys(added, spell);
    KeysConcat(existing, reported);
    forall k | k in KeysOf(evolved) && k !in ignored ensures IsKept(declared, evolved, k) {
      EffectiveConcat(existing, reported, k);
      if k in KeysOf(reported) {
        var c := SpelledSource(added, spell, k);
      } else {
        assert IsKept(declared, existing, k);
      }
    }
    AddedMembers(keys, declared, evolved, ignored);
    var again := Added(keys, declared, evolved, ignored);
    if again != [] {
      DeclaredIsPresent(declared, existing, ignored, keys, again[0], reported, added);
    }
  }

  /** A declared column that is not a partition column is in the table or among the added ones. */
  lemma DeclaredIsPresent(declared: seq<Column>, existing: seq<Column>, ignored: set<string>, keys: seq<string>, c: Column,
                          reported: seq<Column>, added: seq<Column>)
    requires forall k :: k in keys ==> k in KeysOf(declared)
    requires added == Added(keys, declared, existing, ignored)
    requires forall a :: a in added ==> a.Key() in KeysOf(reported)
    requires c.Key() in keys && c.Key() !in ignored && c == Effective(declared, c.Key())
    ensures c.Key() in KeysOf(existing) || c.Key() in KeysOf(reported)
  {
    hide KeysOf, Effective, Added;
    AddedMembers(keys, declared, existing, ignored);
  }
}
