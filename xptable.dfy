/** The level table: one row per level giving the XP needed to complete it. */
module XpTable {
  import opened Types

  /** A usable table has at least one row and strictly increasing levels. */
  predicate WellFormedTable(t: seq<XpRow>)
  {
    |t| > 0 && forall i, j :: 0 <= i < j < |t| ==> t[i].level < t[j].level
  }

  /** The first row for level `lvl`, as `xpTable.find(x => x.level === lvl)`. */
  function FindRow(t: seq<XpRow>, lvl: int): (r: Option<XpRow>)
    ensures r.Some? ==> r.value in t && r.value.level == lvl
    ensures r.None? <==> forall i :: 0 <= i < |t| ==> t[i].level != lvl
  {
    if t == [] then None
    else if t[0].level == lvl then Some(t[0])
    else FindRow(t[1..], lvl)
  }

  /** The row found is the first of the table with that level, as `find`
      returns; with duplicate levels the earliest row's XP is the one used. */
  lemma {:induction false} FindRowIsFirst(t: seq<XpRow>, lvl: int)
    requires FindRow(t, lvl).Some?
    ensures exists i :: 0 <= i < |t| && t[i] == FindRow(t, lvl).value
                        && forall j :: 0 <= j < i ==> t[j].level != lvl
  {
    if t[0].level != lvl {
      FindRowIsFirst(t[1..], lvl);
      var i :| 0 <= i < |t[1..]| && t[1..][i] == FindRow(t[1..], lvl).value
               && forall j :: 0 <= j < i ==> t[1..][j].level != lvl;
      assert t[i + 1] == FindRow(t, lvl).value;
      forall j | 0 <= j < i + 1
        ensures t[j].level != lvl
      {
        if j > 0 {
          assert t[j] == t[1..][j - 1];
        }
      }
    } else {
      assert t[0] == FindRow(t, lvl).value;
    }
  }

  /** The last row's level: the highest tabulated level of a well-formed table. */
  function MaxLevel(t: seq<XpRow>): (m: int)
    requires WellFormedTable(t)
    ensures forall i :: 0 <= i < |t| ==> t[i].level <= m
    ensures exists i :: 0 <= i < |t| && t[i].level == m
  {
    t[|t| - 1].level
  }
}
