/**
 * Derivation of a tenant's database schema name from its tenant identifier:
 * the literal prefix "tenant_" followed by the identifier lower-cased, with
 * every character outside [a-z0-9_] replaced by '_'.
 */
module SchemaNaming {

  /** The literal every schema name starts with. */
  const Prefix: string := "tenant_"

  /** Characters the replacement step keeps: [a-z0-9_]. */
  predicate IsSafeChar(c: char) {
    ('a' <= c <= 'z') || ('0' <= c <= '9') || c == '_'
  }

  predicate IsUpper(c: char) {
    'A' <= c <= 'Z'
  }

  /** Every character of s is in [a-z0-9_]. */
  predicate IsSafe(s: string) {
    forall i :: 0 <= i < |s| ==> IsSafeChar(s[i])
  }

  /** ASCII lower-casing of one character; other characters are left alone. */
  function ToLower(c: char): (d: char)
    ensures IsUpper(c) ==> 'a' <= d <= 'z' && d as int == c as int + 32
    ensures !IsUpper(c) ==> d == c
  {
    if IsUpper(c) then (c as int - 'A' as int + 'a' as int) as char else c
  }

  /**
   * What lower-casing followed by replacing [^a-z0-9_] with '_' does to one
   * character.
   */
  function NormalizeChar(c: char): (d: char)
    ensures IsSafeChar(d)
    ensures IsSafeChar(c) ==> d == c
  {
    var l := ToLower(c);
    if IsSafeChar(l) then l else '_'
  }

  /** The lower-case-and-replace step, one output character per input character. */
  function Sanitize(s: string): (r: string)
    ensures |r| == |s|
    ensures forall i :: 0 <= i < |s| ==> r[i] == NormalizeChar(s[i])
  {
    if s == [] then [] else [NormalizeChar(s[0])] + Sanitize(s[1..])
  }

  /** The schema name of a tenant: the prefix, then one safe character per identifier character. */
  function SchemaName(tenantId: string): (r: string)
    ensures |r| == |Prefix| + |tenantId|
    ensures r[..|Prefix|] == Prefix
    ensures r[|Prefix|..] == Sanitize(tenantId)
  {
    Prefix + Sanitize(tenantId)
  }

  /**
   * After the prefix, character i of the schema name is the normalised
   * character i of the identifier, and it lies in [a-z0-9_].
   */
  lemma SchemaNameShape(tenantId: string)
    ensures forall i :: 0 <= i < |tenantId| ==> SchemaName(tenantId)[|Prefix| + i] == NormalizeChar(tenantId[i])
    ensures IsSafe(SchemaName(tenantId)[|Prefix|..])
  {
    var r := SchemaName(tenantId);
    forall i | 0 <= i < |tenantId| ensures r[|Prefix| + i] == NormalizeChar(tenantId[i]) {
      assert r[|Prefix| + i] == r[|Prefix|..][i];
    }
  }

  /** A character is a fixed point of NormalizeChar exactly when it is safe. */
  lemma NormalizeCharFixed(c: char)
    ensures NormalizeChar(c) == c <==> IsSafeChar(c)
  {
  }

  /** What NormalizeChar does, case by case. */
  lemma NormalizeCharCases(c: char)
    ensures IsUpper(c) ==> NormalizeChar(c) as int == c as int + 32
    ensures IsSafeChar(c) ==> NormalizeChar(c) == c
    ensures !IsUpper(c) && !IsSafeChar(c) ==> NormalizeChar(c) == '_'
  {
  }

  /** The replacement step applied to its own output changes nothing. */
  lemma {:induction false} SanitizeIdempotent(s: string)
    ensures Sanitize(Sanitize(s)) == Sanitize(s)
  {
    if s != [] {
      SanitizeIdempotent(s[1..]);
      assert Sanitize(s) == [NormalizeChar(s[0])] + Sanitize(s[1..]);
      assert Sanitize(s)[1..] == Sanitize(s[1..]);
    }
  }

  /** Sanitize leaves a string unchanged exactly when it is already safe. */
  lemma {:induction false} SanitizeFixedIffSafe(s: string)
    ensures Sanitize(s) == s <==> IsSafe(s)
  {
    if s != [] {
      SanitizeFixedIffSafe(s[1..]);
      NormalizeCharFixed(s[0]);
      assert Sanitize(s) == [NormalizeChar(s[0])] + Sanitize(s[1..]);
      assert IsSafe(s) <==> IsSafeChar(s[0]) && IsSafe(s[1..]) by {
        if IsSafeChar(s[0]) && IsSafe(s[1..]) {
          forall i | 0 <= i < |s| ensures IsSafeChar(s[i]) {
            if i > 0 { assert s[i] == s[1..][i - 1]; }
          }
        }
        if IsSafe(s) {
          forall i | 0 <= i < |s[1..]| ensures IsSafeChar(s[1..][i]) {
            assert s[1..][i] == s[i + 1];
          }
        }
      }
    }
  }

  /**
   * Two identifiers give the same schema name exactly when they have the same
   * length and agree character by character after normalisation.
   */
  lemma SameSchemaNameIff(a: string, b: string)
    ensures SchemaName(a) == SchemaName(b) <==>
              |a| == |b| && forall i :: 0 <= i < |a| ==> NormalizeChar(a[i]) == NormalizeChar(b[i])
  {
    if SchemaName(a) == SchemaName(b) {
      assert Sanitize(a) == SchemaName(a)[|Prefix|..];
      assert Sanitize(b) == SchemaName(b)[|Prefix|..];
      forall i | 0 <= i < |a| ensures NormalizeChar(a[i]) == NormalizeChar(b[i]) {
        assert Sanitize(a)[i] == Sanitize(b)[i];
      }
    }
    if |a| == |b| && forall i :: 0 <= i < |a| ==> NormalizeChar(a[i]) == NormalizeChar(b[i]) {
      assert Sanitize(a) == Sanitize(b);
    }
  }

  /** The derivation is not injective: "a-b" and "a_b" share a schema name. */
  lemma SchemaNameCollides()
    ensures "a-b" != "a_b" && SchemaName("a-b") == SchemaName("a_b") == "tenant_a_b"
  {
    assert "a-b"[1] != "a_b"[1];
    SameSchemaNameIff("a-b", "a_b");
    var r := SchemaName("a_b");
    SanitizeFixedIffSafe("a_b");
    assert Sanitize("a_b") == "a_b";
    assert r == Prefix + "a_b";
  }

  /** Deriving from an already sanitised identifier gives the same schema name. */
  lemma SchemaNameOfSanitized(s: string)
    ensures SchemaName(Sanitize(s)) == SchemaName(s)
  {
    SanitizeIdempotent(s);
  }

  /** Identifiers that differ only in the case of their letters share a schema name. */
  lemma CaseInsensitive(a: string, b: string)
    requires |a| == |b| && forall i :: 0 <= i < |a| ==> ToLower(a[i]) == ToLower(b[i])
    ensures SchemaName(a) == SchemaName(b)
  {
    SameSchemaNameIff(a, b);
  }

  /** "Ab" and "aB" share a schema name. */
  lemma CaseInsensitiveExample()
    ensures "Ab" != "aB" && SchemaName("Ab") == SchemaName("aB")
  {
    CaseInsensitive("Ab", "aB");
  }

  /** The derivation as a whole is never idempotent: a second pass adds another prefix. */
  lemma SchemaNameNotIdempotent(tenantId: string)
    ensures SchemaName(SchemaName(tenantId)) != SchemaName(tenantId)
  {
  }

  /** Length of the tenant table's schemaName column. */
  const SchemaNameColumnLength: nat := 50

  /** The derived name fits the schemaName column exactly when the identifier has at most 43 characters. */
  lemma SchemaNameFitsColumn(tenantId: string)
    ensures |SchemaName(tenantId)| <= SchemaNameColumnLength <==> |tenantId| <= 43
  {
  }

  // Worked examples of the derivation.

  lemma SanitizeAbc123()
    ensures Sanitize("abc123") == "abc123"
  {
    var s := Sanitize("abc123");
    assert s[0] == NormalizeChar('a') == 'a';
    assert s[1] == NormalizeChar('b') == 'b';
    assert s[2] == NormalizeChar('c') == 'c';
    assert s[3] == NormalizeChar('1') == '1';
    assert s[4] == NormalizeChar('2') == '2';
    assert s[5] == NormalizeChar('3') == '3';
  }

  lemma ExampleAbc123()
    ensures SchemaName("abc123") == Prefix + "abc123"
  {
    SanitizeAbc123();
  }

  lemma SanitizeMixed()
    ensures Sanitize("ABC-123!") == "abc_123_"
  {
    var s := Sanitize("ABC-123!");
    assert s[0] == NormalizeChar('A') == 'a';
    assert s[1] == NormalizeChar('B') == 'b';
    assert s[2] == NormalizeChar('C') == 'c';
    assert s[3] == NormalizeChar('-') == '_';
    assert s[4] == NormalizeChar('1') == '1';
    assert s[5] == NormalizeChar('2') == '2';
    assert s[6] == NormalizeChar('3') == '3';
    assert s[7] == NormalizeChar('!') == '_';
  }

  lemma ExampleMixed()
    ensures SchemaName("ABC-123!") == Prefix + "abc_123_"
  {
    SanitizeMixed();
  }

  lemma SanitizeAllReplaced()
    ensures Sanitize("!!!") == "___"
  {
    var s := Sanitize("!!!");
    assert s[0] == NormalizeChar('!') == '_';
    assert s[1] == NormalizeChar('!') == '_';
    assert s[2] == NormalizeChar('!') == '_';
  }

  lemma ExampleAllReplaced()
    ensures SchemaName("!!!") == Prefix + "___"
  {
    SanitizeAllReplaced();
  }
}
