/**
 * The keys under which `func` writes its trigger definitions into
 * `cloudFuncs` (src/index.ts): the bare identity for a function with one
 * action, and `identity + (index + 1) + '_' + type` for each of several.
 */
module OutputKeys {

  /** The character of a decimal digit. */
  function Digit(d: nat): (c: char)
    requires d < 10
    ensures '0' <= c <= '9'
  {
    ('0' as int + d) as char
  }

  /** A non-negative integer in decimal, as a template literal renders it. */
  function DecimalString(n: nat): (s: string)
    ensures |s| >= 1
    ensures forall k :: 0 <= k < |s| ==> '0' <= s[k] <= '9'
    ensures n < 10 <==> |s| == 1
    decreases n
  {
    if n < 10 then [Digit(n)] else DecimalString(n / 10) + [Digit(n % 10)]
  }

  /** Different numbers have different decimal strings. */
  lemma {:induction false} DecimalInjective(n: nat, m: nat)
    requires DecimalString(n) == DecimalString(m)
    ensures n == m
    decreases n
  {
    var s := DecimalString(n);
    if n < 10 {
      assert Digit(n) == s[0] == Digit(m);
    } else {
      assert m >= 10;
      assert DecimalString(n / 10) == s[..|s| - 1] == DecimalString(m / 10);
      DecimalInjective(n / 10, m / 10);
      assert Digit(n % 10) == s[|s| - 1] == Digit(m % 10);
    }
  }

  /** The key of the action at zero-based `index` among `count` actions of `id`. */
  function OutputKey(id: string, count: nat, index: nat, kind: string): string
  {
    if count > 1 then id + DecimalString(index + 1) + "_" + kind else id
  }

  /** With exactly one action the key is the bare identity. */
  lemma SingleActionKeyIsIdentity(id: string, kind: string)
    ensures OutputKey(id, 1, 0, kind) == id
  {
  }

  /** With several actions, the key begins with the identity, then the one-based index, then '_' and the type. */
  lemma {:induction false} SuffixedKeyShape(id: string, count: nat, index: nat, kind: string)
    requires count > 1
    ensures var key := OutputKey(id, count, index, kind);
            var digits := DecimalString(index + 1);
      && key[..|id|] == id
      && key[|id|..|id| + |digits|] == digits
      && key[|id| + |digits|] == '_'
      && key[|id| + |digits| + 1..] == kind
  {
  }

  /** A string with no '_' before the first '_' of a key splits the key unambiguously. */
  lemma SeparatorSplit(di: string, dj: string, x: string, y: string)
    requires forall k :: 0 <= k < |di| ==> di[k] != '_'
    requires forall k :: 0 <= k < |dj| ==> dj[k] != '_'
    requires di + "_" + x == dj + "_" + y
    ensures di == dj && x == y
  {
    var s := di + "_" + x;
    assert s[|di|] == '_' && s[|dj|] == '_';
    assert forall k :: 0 <= k < |dj| ==> s[k] == dj[k];
    assert forall k :: 0 <= k < |di| ==> s[k] == di[k];
    assert |di| == |dj|;
    assert di == s[..|di|] == dj;
    assert x == s[|di| + 1..] == y;
  }

  /**
   * Among several actions of one function a key determines the action's index
   * and type: the '_' after the index marks where the index ends. So the keys
   * of two different actions differ.
   */
  lemma {:induction false} KeyDeterminesAction(id: string, count: nat, i: nat, j: nat, ki: string, kj: string)
    requires count > 1
    ensures OutputKey(id, count, i, ki) == OutputKey(id, count, j, kj) ==> i == j && ki == kj
  {
    var di, dj := DecimalString(i + 1), DecimalString(j + 1);
    if OutputKey(id, count, i, ki) == OutputKey(id, count, j, kj) {
      var a, b := di + "_" + ki, dj + "_" + kj;
      assert id + a == OutputKey(id, count, i, ki);
      assert id + b == OutputKey(id, count, j, kj);
      assert a == (id + a)[|id|..] == (id + b)[|id|..] == b;
      SeparatorSplit(di, dj, ki, kj);
      DecimalInjective(i + 1, j + 1);
    }
  }

  /**
   * Keys of two different identities are not kept apart: the second of two
   * actions named 'Reports' and the single action of 'Reports2_onHttpsCall'
   * are written under the same key.
   */
  lemma KeysOfDistinctIdentitiesCanCollide()
    ensures OutputKey("Reports", 2, 1, "onHttpsCall") == OutputKey("Reports2_onHttpsCall", 1, 0, "onAuthUserCreate")
  {
  }
}
