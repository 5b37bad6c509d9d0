/** String helpers the subscription code relies on: substring search, unquoting, and the order of map keys. */
module Text {

  datatype Option<+T> = None | Some(value: T)

  predicate OccursAt(key: string, s: string, i: nat) {
    i + |key| <= |s| && forall k | 0 <= k < |key| :: s[i + k] == key[k]
  }

  /** `s.find(key) != npos`. */
  predicate Contains(s: string, key: string) {
    exists i: nat | i <= |s| :: OccursAt(key, s, i)
  }

  /** Strips one enclosing pair of double quotes, if there is one. */
  function Unquote(s: string): string {
    if |s| >= 2 && s[0] == '"' && s[|s| - 1] == '"' then s[1..|s| - 1] else s
  }

  lemma ContainsIsSubstring(s: string, key: string)
    ensures Contains(s, key) <==> exists before, after :: s == before + key + after
  {
    if Contains(s, key) {
      var i: nat :| i <= |s| && OccursAt(key, s, i);
      assert s == s[..i] + key + s[i + |key|..];
    }
    if before, after :| s == before + key + after {
      forall k | 0 <= k < |key| ensures s[|before| + k] == key[k] {
      }
      assert OccursAt(key, s, |before|);
    }
  }

  /** A value and the same value in double quotes are both read as the value, if it has no enclosing quotes itself. */
  predicate ReadAs(raw: string, v: string) {
    raw == "\"" + v + "\"" || (raw == v && !(|v| >= 2 && v[0] == '"' && v[|v| - 1] == '"'))
  }

  lemma UnquoteReads(raw: string, v: string)
    requires ReadAs(raw, v)
    ensures Unquote(raw) == v
  {
  }

  /** Occurring in a string that itself occurs in `t` is occurring in `t`. */
  lemma ContainsTransitive(t: string, s: string, key: string)
    requires Contains(t, s) && Contains(s, key)
    ensures Contains(t, key)
  {
    var i: nat :| i <= |t| && OccursAt(s, t, i);
    var j: nat :| j <= |s| && OccursAt(key, s, j);
    forall k | 0 <= k < |key| ensures t[i + j + k] == key[k] {
      assert t[i + (j + k)] == s[j + k];
    }
    assert OccursAt(key, t, i + j);
  }

  /** A keyword without a double quote occurs in a raw value exactly when it occurs in the unquoted value. */
  lemma UnquoteKeepsKeywords(raw: string, key: string)
    requires '"' !in key
    ensures Contains(raw, key) <==> Contains(Unquote(raw), key)
  {
    var inner := Unquote(raw);
    if inner != raw {
      if Contains(inner, key) {
        var i: nat :| i <= |inner| && OccursAt(key, inner, i);
        forall k | 0 <= k < |key| ensures raw[i + 1 + k] == key[k] {
          assert inner[i + k] == key[k];
        }
        assert OccursAt(key, raw, i + 1);
      }
      if Contains(raw, key) {
        if key == "" {
          assert OccursAt(key, inner, 0);
        } else {
          var i: nat :| i <= |raw| && OccursAt(key, raw, i);
          assert raw[i + 0] == key[0] && raw[i + (|key| - 1)] == key[|key| - 1];
          forall k | 0 <= k < |key| ensures inner[i - 1 + k] == key[k] {
            assert raw[i + k] == key[k];
          }
          assert OccursAt(key, inner, i - 1);
        }
      }
    }
  }

  /** Lexicographic order of `std::string`, the order of the multimap's keys. */
  predicate Less(a: string, b: string) {
    b != [] && (a == [] || a[0] < b[0] || (a[0] == b[0] && Less(a[1..], b[1..])))
  }

  /** The first character that differs decides, or the length if there is none. */
  lemma {:induction false} LessIsLexicographic(a: string, b: string)
    ensures Less(a, b) <==> exists k ::
              0 <= k <= |a| && k < |b| && a[..k] == b[..k] && (k == |a| || a[k] < b[k])
  {
    if b == [] {
    } else if a == [] || a[0] < b[0] {
      assert a[..0] == b[..0];
    } else if a[0] == b[0] {
      LessIsLexicographic(a[1..], b[1..]);
      if k :| 0 <= k <= |a[1..]| && k < |b[1..]| && a[1..][..k] == b[1..][..k] &&
              (k == |a[1..]| || a[1..][k] < b[1..][k]) {
        assert a[..k + 1] == [a[0]] + a[1..][..k] && b[..k + 1] == [b[0]] + b[1..][..k];
      }
      if k :| 0 <= k <= |a| && k < |b| && a[..k] == b[..k] && (k == |a| || a[k] < b[k]) {
        assert k > 0;
        assert a[1..][..k - 1] == a[..k][1..] && b[1..][..k - 1] == b[..k][1..];
      }
    } else {
      assert forall k | 0 < k <= |a| && k < |b| :: a[..k][0] != b[..k][0];
    }
  }

  lemma {:induction false} LessIrreflexive(a: string)
    ensures !Less(a, a)
  {
    if a != [] {
      LessIrreflexive(a[1..]);
    }
  }

  lemma {:induction false} LessTransitive(a: string, b: string, c: string)
    requires Less(a, b) && Less(b, c)
    ensures Less(a, c)
  {
    if a != [] && a[0] == b[0] == c[0] {
      LessTransitive(a[1..], b[1..], c[1..]);
    }
  }

  lemma {:induction false} LessTotal(a: string, b: string)
    ensures Less(a, b) || Less(b, a) || a == b
  {
    if a != [] && b != [] && a[0] == b[0] {
      LessTotal(a[1..], b[1..]);
      assert a == [a[0]] + a[1..] && b == [b[0]] + b[1..];
    }
  }
}
