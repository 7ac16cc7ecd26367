/** Shared vocabulary: optional values, document ids and the one string
    operation the pages rely on (JavaScript's String.prototype.includes). */
module Common {

  /** A value that may be absent (`undefined` / `null` in the source). */
  datatype Option<+T> = None | Some(value: T) {
    function GetOr(default: T): T {
      match this
      case Some(v) => v
      case None => default
    }
  }

  /** A document id assigned by the store. */
  type Id = string

  /** True iff `sub` occurs in `s` at position `i`. */
  predicate OccursAt(s: string, sub: string, i: nat) {
    i + |sub| <= |s| && s[i..i + |sub|] == sub
  }

  /** `s.includes(sub)`: `sub` occurs somewhere in `s`. */
  predicate Contains(s: string, sub: string) {
    exists i: nat | i <= |s| :: OccursAt(s, sub, i)
  }

  /** The empty pattern occurs everywhere; a pattern occurs only in a text
      at least as long, and it occurs in any text built around it. */
  lemma ContainsProperties(s: string, sub: string, before: string, after: string)
    ensures Contains(s, "")
    ensures Contains(s, sub) ==> |sub| <= |s|
    ensures Contains(before + sub + after, sub)
  {
    assert OccursAt(s, "", 0);
    var t := before + sub + after;
    assert t[|before|..|before| + |sub|] == sub;
    assert OccursAt(t, sub, |before|);
  }

  /** A non-empty pattern whose first character never appears in `s`
      does not occur in `s`. */
  lemma NotContainsWithoutFirstChar(s: string, sub: string)
    requires |sub| > 0 && sub[0] !in s
    ensures !Contains(s, sub)
  {
  }
}
