/**
 * What every planner shares: cloud resources are plain records, a value a
 * resource only knows once it is created (an `id`, an `arn`) is a symbolic
 * reference to that resource, and tags and labels are string maps built by
 * Python's `{**base, k1: v1, ...}` display, where a later key wins.
 */
module Resources {

  /** Tags (and Kubernetes labels): a string-to-string dictionary. */
  type Tags = map<string, string>

  /** An output of a registered resource: the attribute `attr` of the resource named `resource`. */
  datatype Ref = Ref(resource: string, attr: string)

  function Id(resource: string): Ref {
    Ref(resource, "id")
  }

  function Arn(resource: string): Ref {
    Ref(resource, "arn")
  }

  /** The keys written by a sequence of entries. */
  function Keys(entries: seq<(string, string)>): set<string> {
    set i | 0 <= i < |entries| :: entries[i].0
  }

  /** `{**base, k1: v1, k2: v2, ...}`: the entries are written over `base` from left to right. */
  function WithEntries(base: Tags, entries: seq<(string, string)>): (r: Tags)
    ensures r.Keys == base.Keys + Keys(entries)
    decreases |entries|
  {
    if entries == [] then base
    else
      var last := entries[|entries| - 1];
      var r := WithEntries(base, entries[..|entries| - 1])[last.0 := last.1];
      assert Keys(entries) == Keys(entries[..|entries| - 1]) + {last.0};
      r
  }

  /**
   * The dictionary display: every key of `base` not written by an entry
   * keeps its value, and a written key holds the value of its last entry.
   */
  lemma {:induction false} WithEntriesValues(base: Tags, entries: seq<(string, string)>)
    ensures forall k :: k in base && k !in Keys(entries) ==> WithEntries(base, entries)[k] == base[k]
    ensures forall i :: 0 <= i < |entries| && (forall j :: i < j < |entries| ==> entries[j].0 != entries[i].0)
              ==> WithEntries(base, entries)[entries[i].0] == entries[i].1
    decreases |entries|
  {
    if entries != [] {
      var init := entries[..|entries| - 1];
      WithEntriesValues(base, init);
      assert Keys(entries) == Keys(init) + {entries[|entries| - 1].0};
      forall i | 0 <= i < |entries| && (forall j :: i < j < |entries| ==> entries[j].0 != entries[i].0)
        ensures WithEntries(base, entries)[entries[i].0] == entries[i].1
      {
        if i < |entries| - 1 {
          assert init[i] == entries[i];
          assert forall j :: i < j < |init| ==> init[j].0 != init[i].0 by {
            forall j | i < j < |init|
              ensures init[j].0 != init[i].0
            {
              assert init[j] == entries[j];
            }
          }
        }
      }
    }
  }

  /** A three-entry display is three successive updates. */
  lemma WithThreeEntries(base: Tags, entries: seq<(string, string)>)
    requires |entries| == 3
    ensures WithEntries(base, entries)
      == base[entries[0].0 := entries[0].1][entries[1].0 := entries[1].1][entries[2].0 := entries[2].1]
  {
    var e2 := entries[..2];
    var e1 := entries[..1];
    assert e2[..1] == e1 && e2[1] == entries[1];
    assert e1[..0] == [] && e1[0] == entries[0];
    assert WithEntries(base, e1) == base[entries[0].0 := entries[0].1];
    assert WithEntries(base, e2) == WithEntries(base, e1)[entries[1].0 := entries[1].1];
  }

  /**
   * Rewriting the first of three distinct-key updates afterwards is the same
   * as having written the new value first.
   */
  lemma RewriteFirst(m: Tags, a: string, b: string, c: string, x: string, y: string, u: string, v: string)
    requires a != b && a != c
    ensures m[a := x][b := u][c := v] == m[a := y][b := u][c := v][a := x]
  {
  }
}
