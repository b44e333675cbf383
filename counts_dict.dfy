/** The counts dictionary returned by `get_counts()`: measured bit-string to
    number of shots. A Python dict iterates in insertion order, so it is a
    sequence of entries; its keys are distinct (IsDict). */
module CountsDict {

  datatype Entry = Entry(key: string, count: nat)

  type Counts = seq<Entry>

  /** Keys of a dictionary are pairwise distinct. */
  predicate IsDict(c: Counts) {
    forall i, j :: 0 <= i < j < |c| ==> c[i].key != c[j].key
  }

  predicate HasKey(c: Counts, k: string) {
    exists i :: 0 <= i < |c| && c[i].key == k
  }

  /** `sum(counts.values())`. */
  function Total(c: Counts): nat {
    if c == [] then 0 else Total(c[..|c| - 1]) + c[|c| - 1].count
  }

  /** Sum of the counts stored under key k (for a dict: its value, or 0). */
  function KeySum(c: Counts, k: string): nat {
    if c == [] then 0
    else KeySum(c[..|c| - 1], k) + (if c[|c| - 1].key == k then c[|c| - 1].count else 0)
  }

  /** `counts.get(k, default)`. */
  function Get(c: Counts, k: string, default: nat): (v: nat)
    ensures !HasKey(c, k) ==> v == default
    ensures HasKey(c, k) ==> exists i :: 0 <= i < |c| && c[i].key == k && v == c[i].count
  {
    if c == [] then default
    else if c[|c| - 1].key == k then c[|c| - 1].count
    else
      var v := Get(c[..|c| - 1], k, default);
      assert HasKey(c[..|c| - 1], k) <==> HasKey(c, k) by {
        if HasKey(c, k) {
          var i :| 0 <= i < |c| && c[i].key == k;
          assert i < |c| - 1 && c[..|c| - 1][i] == c[i];
        }
      }
      v
  }

  lemma {:induction false} KeySumAbsent(c: Counts, k: string)
    requires !HasKey(c, k)
    ensures KeySum(c, k) == 0
  {
    if c != [] {
      var p := c[..|c| - 1];
      forall i | 0 <= i < |p| ensures p[i].key != k {
        assert p[i] == c[i];
      }
      KeySumAbsent(p, k);
    }
  }

  /** In a dictionary, `get(k, 0)` is the total of all shots recorded under k. */
  lemma {:induction false} GetIsKeySum(c: Counts, k: string)
    requires IsDict(c)
    ensures Get(c, k, 0) == KeySum(c, k)
  {
    if c != [] {
      var p := c[..|c| - 1];
      assert IsDict(p) by {
        forall i, j | 0 <= i < j < |p| ensures p[i].key != p[j].key {
          assert p[i] == c[i] && p[j] == c[j];
        }
      }
      if c[|c| - 1].key == k {
        forall i | 0 <= i < |p| ensures p[i].key != k {
          assert p[i] == c[i];
        }
        KeySumAbsent(p, k);
      } else {
        GetIsKeySum(p, k);
      }
    }
  }
}
