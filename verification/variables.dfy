/** YAML values and the `dict.update` merge that collation is built from. */
module Variables {

  /** A YAML value. Floats are kept as their literal text: no floating-point
      arithmetic happens anywhere in the wrapper. */
  datatype Value =
    | Str(s: string)
    | Int(i: int)
    | Float(literal: string)
    | Bool(b: bool)
    | Null
    | Mapping(entries: map<string, Value>)
    | List(items: seq<Value>)

  /** A variables dictionary. */
  type Vars = map<string, Value>

  /** `acc.update(sources[0]); acc.update(sources[1]); ...`: each update
      overwrites the keys it holds and keeps the others. */
  function UpdateAll(acc: Vars, sources: seq<Vars>): Vars
    decreases |sources|
  {
    if sources == [] then acc else UpdateAll(acc + sources[0], sources[1..])
  }

  /** A fresh dictionary updated with every source in order. */
  function Merge(sources: seq<Vars>): Vars {
    UpdateAll(map[], sources)
  }

  /** Every key held by some source. */
  function AllKeys(sources: seq<Vars>): set<string> {
    set i, k | 0 <= i < |sources| && k in sources[i] :: k
  }

  /** Source `i` holds `k` and no later source does. */
  predicate LastHolder(sources: seq<Vars>, k: string, i: int) {
    && 0 <= i < |sources|
    && k in sources[i]
    && forall j :: i < j < |sources| ==> k !in sources[j]
  }

  lemma AllKeysCons(sources: seq<Vars>)
    requires sources != []
    ensures AllKeys(sources) == sources[0].Keys + AllKeys(sources[1..])
  {
    forall k | k in AllKeys(sources)
      ensures k in sources[0].Keys + AllKeys(sources[1..])
    {
      var i :| 0 <= i < |sources| && k in sources[i];
      if i > 0 {
        assert k in sources[1..][i - 1];
      }
    }
    forall k | k in AllKeys(sources[1..])
      ensures k in AllKeys(sources)
    {
      var i :| 0 <= i < |sources[1..]| && k in sources[1..][i];
      assert k in sources[i + 1];
    }
  }

  /** The keys of an update chain are the keys of the accumulator and of every source. */
  lemma {:induction false} UpdateAllKeys(acc: Vars, sources: seq<Vars>)
    ensures UpdateAll(acc, sources).Keys == acc.Keys + AllKeys(sources)
    decreases |sources|
  {
    if sources == [] {
      assert AllKeys(sources) == {};
    } else {
      UpdateAllKeys(acc + sources[0], sources[1..]);
      AllKeysCons(sources);
    }
  }

  /** Last write wins: the value of a key is the one in the last source holding it. */
  lemma {:induction false} UpdateAllLastWins(acc: Vars, sources: seq<Vars>, k: string, i: int)
    requires LastHolder(sources, k, i)
    ensures k in UpdateAll(acc, sources)
    ensures UpdateAll(acc, sources)[k] == sources[i][k]
    decreases |sources|
  {
    if i == 0 {
      UpdateAllKeeps(acc + sources[0], sources[1..], k);
    } else {
      assert LastHolder(sources[1..], k, i - 1);
      UpdateAllLastWins(acc + sources[0], sources[1..], k, i - 1);
    }
  }

  /** A key no source holds keeps its accumulator value. */
  lemma {:induction false} UpdateAllKeeps(acc: Vars, sources: seq<Vars>, k: string)
    requires k in acc
    requires forall j :: 0 <= j < |sources| ==> k !in sources[j]
    ensures k in UpdateAll(acc, sources)
    ensures UpdateAll(acc, sources)[k] == acc[k]
    decreases |sources|
  {
    if sources != [] {
      assert k !in sources[0];
      assert forall j :: 0 <= j < |sources[1..]| ==> k !in sources[1..][j] by {
        forall j | 0 <= j < |sources[1..]| ensures k !in sources[1..][j] {
          assert sources[1..][j] == sources[j + 1];
        }
      }
      UpdateAllKeeps(acc + sources[0], sources[1..], k);
    }
  }

  /** The merge holds exactly the keys of its sources, each with the value of the last source holding it. */
  lemma MergeSpec(sources: seq<Vars>)
    ensures Merge(sources).Keys == AllKeys(sources)
    ensures forall k, i :: LastHolder(sources, k, i) ==> Merge(sources)[k] == sources[i][k]
  {
    UpdateAllKeys(map[], sources);
    forall k, i | LastHolder(sources, k, i)
      ensures Merge(sources)[k] == sources[i][k]
    {
      UpdateAllLastWins(map[], sources, k, i);
    }
  }
}
