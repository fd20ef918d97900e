/**
 * The pipe network as the session holds it: series segments ("trechos") and
 * the dictionary of parallel branches ("ramais"), kept in insertion order.
 */
module Network {
  /** One pipe stretch: length in m, diameter and absolute roughness in mm.
      `fittings` are the attached fittings ("acessorios"); no loss uses them. */
  datatype Segment = Segment(id: real, length: real, diameter: real, roughness: real, fittings: seq<string>)

  /** One named flow path of the parallel group. */
  datatype Branch = Branch(name: string, path: seq<Segment>)

  /** A Python dict from branch name to segment list: entries in insertion order. */
  type BranchTable = seq<Branch>

  function Names(t: BranchTable): seq<string> {
    seq(|t|, i requires 0 <= i < |t| => t[i].name)
  }

  ghost predicate DistinctNames(t: BranchTable) {
    forall i, j :: 0 <= i < j < |t| ==> t[i].name != t[j].name
  }

  /**
   * `t[name] = path`: an existing key keeps its place and gets the new value,
   * a new key is appended at the end.
   */
  function Assign(t: BranchTable, name: string, path: seq<Segment>): (r: BranchTable)
    ensures name in Names(t) ==> |r| == |t| && Names(r) == Names(t)
    ensures name in Names(t) ==>
      forall i :: 0 <= i < |t| ==> r[i] == (if t[i].name == name then Branch(name, path) else t[i])
    ensures name !in Names(t) ==> r == t + [Branch(name, path)]
    ensures DistinctNames(t) ==> DistinctNames(r)
  {
    if name in Names(t) then
      seq(|t|, i requires 0 <= i < |t| => if t[i].name == name then Branch(name, path) else t[i])
    else
      assert forall i :: 0 <= i < |t| ==> Names(t)[i] == t[i].name;
      t + [Branch(name, path)]
  }

  /** `dict.popitem()`: removes the most recently inserted entry. */
  function PopItem(t: BranchTable): (r: BranchTable)
    requires |t| > 0
    ensures r + [t[|t| - 1]] == t
    ensures DistinctNames(t) ==> DistinctNames(r)
  {
    t[..|t| - 1]
  }
}
