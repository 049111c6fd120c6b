/** The lookup tables the base inference-result converter builds in its
    constructor (results_to_prediction_converter.py:54-101), as functions of the
    label list and of the ModelAPI label names, with the label resolution rule
    `__get_label`. The converter classes fill their fields with loops and prove
    that the fields equal these functions. */
module LabelTables {
  import opened Wrappers
  import opened Text
  import opened ModelTypes

  /** A single `configuration["labels"]` string counts as a one-element list. */
  function ModelApiLabels(c: ConfigLabels): (names: seq<string>)
    ensures c.SingleName? ==> names == [c.name]
    ensures c.NameList? ==> names == c.names
  {
    match c
    case SingleName(n) => [n]
    case NameList(ns) => ns
  }

  // ---------------------------------------------------------------------------
  // Dictionaries filled by assignment in a loop: the last assignment to a key wins.
  // ---------------------------------------------------------------------------

  function LastWins<K(!new), V>(ks: seq<K>, vs: seq<V>): (m: map<K, V>)
    requires |ks| == |vs|
    ensures forall k :: k in m <==> k in ks
  {
    if ks == [] then map[]
    else
      var n := |ks| - 1;
      assert forall k :: k in ks <==> k in ks[..n] || k == ks[n];
      LastWins(ks[..n], vs[..n])[ks[n] := vs[n]]
  }

  /** The value of a key is the one assigned at its last occurrence. */
  lemma {:induction false} LastWinsAt<K(!new), V>(ks: seq<K>, vs: seq<V>, j: int)
    requires |ks| == |vs| && 0 <= j < |ks|
    requires forall i :: j < i < |ks| ==> ks[i] != ks[j]
    ensures ks[j] in LastWins(ks, vs) && LastWins(ks, vs)[ks[j]] == vs[j]
  {
    var n := |ks| - 1;
    if j < n {
      LastWinsAt(ks[..n], vs[..n], j);
    }
  }

  /** The position of the last occurrence of `k`. */
  function LastIndex<K(==)>(ks: seq<K>, k: K): (j: nat)
    requires k in ks
    ensures j < |ks| && ks[j] == k
    ensures forall i :: j < i < |ks| ==> ks[i] != k
  {
    var n := |ks| - 1;
    if ks[n] == k then n
    else
      assert k in ks[..n] by {
        var i :| 0 <= i < |ks| && ks[i] == k;
        assert ks[..n][i] == k;
      }
      LastIndex(ks[..n], k)
  }

  /** Every key holds the value assigned at its last occurrence. */
  lemma LastWinsLast<K(!new), V>(ks: seq<K>, vs: seq<V>, k: K)
    requires |ks| == |vs| && k in ks
    ensures k in LastWins(ks, vs) && LastWins(ks, vs)[k] == vs[LastIndex(ks, k)]
  {
    LastWinsAt(ks, vs, LastIndex(ks, k));
  }

  /** `str(label.id)` for every label, in order. */
  function Ids(ls: seq<Label>): (ids: seq<string>)
    ensures |ids| == |ls|
  {
    seq(|ls|, i requires 0 <= i < |ls| => ls[i].id)
  }

  /** `label_map_ids` (lines 71-72): each id maps to the last label carrying it. */
  function IdMap(ls: seq<Label>): map<string, Label> {
    LastWins(Ids(ls), ls)
  }

  /** Every key of `label_map_ids` is the id of a label, and maps to a label with that id. */
  lemma IdMapEntries(ls: seq<Label>, id: string)
    ensures id in IdMap(ls) <==> exists l :: l in ls && l.id == id
    ensures id in IdMap(ls) ==> IdMap(ls)[id] in ls && IdMap(ls)[id].id == id
    ensures id in IdMap(ls) ==>
              var j := LastIndex(Ids(ls), id);
              IdMap(ls)[id] == ls[j] && forall i :: j < i < |ls| ==> ls[i].id != id
  {
    var ids := Ids(ls);
    if exists l :: l in ls && l.id == id {
      var l :| l in ls && l.id == id;
      var j :| 0 <= j < |ls| && ls[j] == l;
      assert ids[j] == id;
    }
    if id in IdMap(ls) {
      LastWinsLast(ids, ls, id);
      var j := LastIndex(ids, id);
      assert forall i :: j < i < |ls| ==> ids[i] == ls[i].id;
    }
  }

  // ---------------------------------------------------------------------------
  // `legacy_label_map_names` (lines 66, 71-76): a defaultdict of lists.
  // ---------------------------------------------------------------------------

  /** The name with every space replaced by '_'. */
  function Underscored(name: string): string {
    ReplaceChar(name, ' ', '_')
  }

  /** A defaultdict(list) lookup: a missing key reads as the empty list. */
  function Registered(m: map<string, seq<Label>>, key: string): seq<Label> {
    if key in m then m[key] else []
  }

  /** `m[key].append(l)` on a defaultdict(list). */
  function Register(m: map<string, seq<Label>>, key: string, l: Label): map<string, seq<Label>> {
    m[key := Registered(m, key) + [l]]
  }

  /** The map after the loop: each label is appended under its underscored name,
      then under its raw name. */
  function LegacyNames(ls: seq<Label>): map<string, seq<Label>> {
    if ls == [] then map[]
    else
      var l := ls[|ls| - 1];
      Register(Register(LegacyNames(ls[..|ls| - 1]), Underscored(l.name), l), l.name, l)
  }

  /** The labels listed under `key`, label by label: a label is listed once for each
      of its two names that equals `key`, so twice when its name has no space. */
  function LegacyMatches(ls: seq<Label>, key: string): (r: seq<Label>)
    ensures forall l :: l in r ==> l in ls && (l.name == key || Underscored(l.name) == key)
  {
    if ls == [] then []
    else
      var l := ls[|ls| - 1];
      LegacyMatches(ls[..|ls| - 1], key)
        + (if Underscored(l.name) == key then [l] else [])
        + (if l.name == key then [l] else [])
  }

  /** The loop builds, under every key, exactly the list `LegacyMatches` describes. */
  lemma {:induction false} LegacyNamesMatches(ls: seq<Label>, key: string)
    ensures Registered(LegacyNames(ls), key) == LegacyMatches(ls, key)
  {
    if ls != [] {
      LegacyNamesMatches(ls[..|ls| - 1], key);
    }
  }

  /** Every label is listed under its raw name and under its underscored name. */
  lemma {:induction false} LegacyMatchesComplete(ls: seq<Label>, l: Label)
    requires l in ls
    ensures l in LegacyMatches(ls, l.name)
    ensures l in LegacyMatches(ls, Underscored(l.name))
  {
    var n := |ls| - 1;
    if l != ls[n] {
      assert l in ls[..n];
      LegacyMatchesComplete(ls[..n], l);
    }
  }

  /** A name without spaces is its own underscored name. */
  lemma UnderscoredWithoutSpace(name: string)
    requires ' ' !in name
    ensures Underscored(name) == name
  {
    assert forall i :: 0 <= i < |name| ==> name[i] != ' ';
  }

  /** A label whose name has no space is listed twice under that name, once for
      the underscored name and once for the raw name. */
  lemma SpaceFreeNameListedTwice(l: Label)
    requires ' ' !in l.name
    ensures LegacyMatches([l], l.name) == [l, l]
  {
    UnderscoredWithoutSpace(l.name);
    assert [l][..0] == [];
  }

  /** For labels "foo_bar" (a) then "foo bar" (b), the key "foo_bar" lists a, a, b:
      a second model label "foo_bar" resolves to a again, never to b. */
  lemma {:induction false} LegacyDuplicateListsFirstLabelTwice(a: Label, b: Label)
    requires ' ' !in a.name && ' ' in b.name && Underscored(b.name) == a.name
    ensures LegacyMatches([a, b], a.name) == [a, a, b]
  {
    SpaceFreeNameListedTwice(a);
    assert [a, b][..1] == [a];
    assert b.name != a.name by {
      var k :| 0 <= k < |b.name| && b.name[k] == ' ';
      assert a.name[k] == '_';
    }
  }

  /** The name under which the empty label is always registered. */
  const OtxEmptyLabelName: string := "otx_empty_lbl"

  /** `legacy_label_map_names` as the constructor leaves it: `otx_empty_lbl` is
      overwritten with the empty label alone (nothing when the list has none). */
  function LegacyLabelMap(ls: seq<Label>, emptyLabel: Option<Label>): map<string, seq<Label>> {
    LegacyNames(ls)[OtxEmptyLabelName := if emptyLabel.Some? then [emptyLabel.value] else []]
  }

  lemma LegacyLabelMapEntries(ls: seq<Label>, emptyLabel: Option<Label>, key: string)
    ensures key == OtxEmptyLabelName ==>
              Registered(LegacyLabelMap(ls, emptyLabel), key)
                == (if emptyLabel.Some? then [emptyLabel.value] else [])
    ensures key != OtxEmptyLabelName ==>
              Registered(LegacyLabelMap(ls, emptyLabel), key) == LegacyMatches(ls, key)
  {
    LegacyNamesMatches(ls, key);
  }

  // ---------------------------------------------------------------------------
  // `__get_label` (lines 93-101)
  // ---------------------------------------------------------------------------

  /** An exact id match wins; otherwise the `posIdx`-th label listed under the
      legacy name; otherwise `ValueError`. */
  function ResolveLabel(ids: map<string, Label>, legacy: map<string, seq<Label>>,
                        labelStr: string, posIdx: nat): (r: Result<Label>)
    ensures r.Err? <==> labelStr !in ids && posIdx >= |Registered(legacy, labelStr)|
    ensures r.Err? ==> r.error == ValueError
    ensures r.Ok? && labelStr in ids ==> r.value == ids[labelStr]
    ensures r.Ok? && labelStr !in ids ==> r.value == Registered(legacy, labelStr)[posIdx]
  {
    if labelStr in ids then Ok(ids[labelStr])
    else
      var matched := Registered(legacy, labelStr);
      if posIdx < |matched| then Ok(matched[posIdx]) else Err(ValueError)
  }

  /** Resolution against the tables built from a label list, stated in terms of
      the list: the last label with that id, else the `posIdx`-th legacy match
      (only the empty label for `otx_empty_lbl`), else `ValueError`. */
  lemma ResolveAgainstLabelList(ls: seq<Label>, labelStr: string, posIdx: nat)
    ensures var r := ResolveLabel(IdMap(ls), LegacyLabelMap(ls, EmptyLabel(ls)), labelStr, posIdx);
            && ((exists l :: l in ls && l.id == labelStr) ==>
                  r.Ok? && r.value in ls && r.value.id == labelStr)
            && (!(exists l :: l in ls && l.id == labelStr) && labelStr == OtxEmptyLabelName ==>
                  r == if posIdx == 0 && EmptyLabel(ls).Some? then Ok(EmptyLabel(ls).value) else Err(ValueError))
            && (!(exists l :: l in ls && l.id == labelStr) && labelStr != OtxEmptyLabelName ==>
                  r == if posIdx < |LegacyMatches(ls, labelStr)| then Ok(LegacyMatches(ls, labelStr)[posIdx])
                       else Err(ValueError))
  {
    IdMapEntries(ls, labelStr);
    LegacyLabelMapEntries(ls, EmptyLabel(ls), labelStr);
  }

  /** A resolved label always comes from the label list (or is its empty label),
      and carries the string as its id, its name or its underscored name. */
  lemma ResolvedLabelOrigin(ls: seq<Label>, labelStr: string, posIdx: nat)
    requires ResolveLabel(IdMap(ls), LegacyLabelMap(ls, EmptyLabel(ls)), labelStr, posIdx).Ok?
    ensures var l := ResolveLabel(IdMap(ls), LegacyLabelMap(ls, EmptyLabel(ls)), labelStr, posIdx).value;
            l in ls &&
            (l.id == labelStr || l.name == labelStr || Underscored(l.name) == labelStr
             || (labelStr == OtxEmptyLabelName && l.isEmpty))
  {
    ResolveAgainstLabelList(ls, labelStr, posIdx);
  }

  // ---------------------------------------------------------------------------
  // `idx_to_label`, `str_to_label`, `model_api_label_map_counts` (lines 78-88)
  // ---------------------------------------------------------------------------

  /** How often `s` occurs in `names`. */
  function Count(names: seq<string>, s: string): (n: nat)
    ensures n <= |names|
    ensures n > 0 <==> s in names
  {
    if names == [] then 0
    else Count(names[..|names| - 1], s) + (if names[|names| - 1] == s then 1 else 0)
  }

  /** The label the `j`-th model label string resolves to: its `posIdx` is the
      number of earlier occurrences of the same string. */
  function ResolveAt(ids: map<string, Label>, legacy: map<string, seq<Label>>,
                     names: seq<string>, j: nat): Result<Label>
    requires j < |names|
  {
    ResolveLabel(ids, legacy, names[j], Count(names[..j], names[j]))
  }

  /** All model label strings resolved in order; the first failure is the result. */
  function ResolveModelLabels(ids: map<string, Label>, legacy: map<string, seq<Label>>,
                              names: seq<string>): (r: Result<seq<Label>>)
    ensures r.Err? ==> r.error == ValueError
    ensures r.Ok? ==> |r.value| == |names|
  {
    if names == [] then Ok([])
    else
      var n := |names| - 1;
      match ResolveModelLabels(ids, legacy, names[..n])
      case Err(e) => Err(e)
      case Ok(prev) =>
        match ResolveAt(ids, legacy, names, n)
        case Err(e) => Err(e)
        case Ok(l) => Ok(prev + [l])
  }

  /** Resolving a string of a prefix is resolving it in the whole list. */
  lemma ResolveAtPrefix(ids: map<string, Label>, legacy: map<string, seq<Label>>,
                        names: seq<string>, n: nat, j: nat)
    requires j < n <= |names|
    ensures ResolveAt(ids, legacy, names[..n], j) == ResolveAt(ids, legacy, names, j)
  {
    assert names[..n][j] == names[j];
    assert names[..n][..j] == names[..j];
  }

  /** Resolution succeeds exactly when every string resolves at its occurrence
      count, and then yields one label per string, in order. */
  lemma {:induction false} ResolveModelLabelsSpec(ids: map<string, Label>, legacy: map<string, seq<Label>>,
                                                  names: seq<string>)
    ensures ResolveModelLabels(ids, legacy, names).Ok?
        <==> forall j :: 0 <= j < |names| ==> ResolveAt(ids, legacy, names, j).Ok?
    ensures ResolveModelLabels(ids, legacy, names).Ok? ==>
              var rs := ResolveModelLabels(ids, legacy, names).value;
              |rs| == |names| &&
              forall j :: 0 <= j < |names| ==> ResolveAt(ids, legacy, names, j) == Ok(rs[j])
    ensures ResolveModelLabels(ids, legacy, names).Err? ==>
              ResolveModelLabels(ids, legacy, names).error == ValueError
  {
    if names != [] {
      var n := |names| - 1;
      var pre := names[..n];
      ResolveModelLabelsSpec(ids, legacy, pre);
      var r := ResolveModelLabels(ids, legacy, pre);
      if r.Err? {
        forall j | 0 <= j < n
          ensures ResolveAt(ids, legacy, pre, j) == ResolveAt(ids, legacy, names, j)
        {
          ResolveAtPrefix(ids, legacy, names, n, j);
        }
        assert ResolveModelLabels(ids, legacy, names) == r;
      } else {
        var rs := r.value;
        var last := ResolveAt(ids, legacy, names, n);
        if last.Err? {
          assert ResolveModelLabels(ids, legacy, names) == Err(last.error);
        } else {
          var all := rs + [last.value];
          assert ResolveModelLabels(ids, legacy, names) == Ok(all);
          forall j | 0 <= j < |names|
            ensures ResolveAt(ids, legacy, names, j) == Ok(all[j])
          {
            if j < n {
              ResolveAtPrefix(ids, legacy, names, n, j);
              assert all[j] == rs[j];
            }
          }
        }
      }
    }
  }

  /** One more resolved string extends the resolved prefix by its label. */
  lemma ResolveModelLabelsStep(ids: map<string, Label>, legacy: map<string, seq<Label>>,
                               names: seq<string>, j: nat, rs: seq<Label>, l: Label)
    requires j < |names|
    requires ResolveModelLabels(ids, legacy, names[..j]) == Ok(rs)
    requires ResolveAt(ids, legacy, names, j) == Ok(l)
    ensures ResolveModelLabels(ids, legacy, names[..j + 1]) == Ok(rs + [l])
  {
    var pre := names[..j + 1];
    assert pre[..j] == names[..j];
    assert ResolveAt(ids, legacy, pre, j) == ResolveAt(ids, legacy, names, j) by {
      ResolveAtPrefix(ids, legacy, names, j + 1, j);
    }
  }

  /** A string that does not resolve makes the whole resolution fail. */
  lemma ResolveModelLabelsFails(ids: map<string, Label>, legacy: map<string, seq<Label>>,
                                names: seq<string>, j: nat)
    requires j < |names| && ResolveAt(ids, legacy, names, j).Err?
    ensures ResolveModelLabels(ids, legacy, names).Err?
  {
    ResolveModelLabelsSpec(ids, legacy, names);
  }

  /** `idx_to_label`: keys 0..n-1, one per model label. */
  function IndexMap(rs: seq<Label>): (m: map<int, Label>)
    ensures forall i :: i in m <==> 0 <= i < |rs|
    ensures forall i :: 0 <= i < |rs| ==> m[i] == rs[i]
  {
    if rs == [] then map[]
    else IndexMap(rs[..|rs| - 1])[|rs| - 1 := rs[|rs| - 1]]
  }

  /** `model_api_label_map_counts`: how often each string occurs. */
  function CountMap(names: seq<string>): (m: map<string, nat>)
    ensures forall s :: s in m <==> s in names
    ensures forall s :: s in m ==> m[s] == Count(names, s)
  {
    if names == [] then map[]
    else
      var n := |names| - 1;
      var m := CountMap(names[..n]);
      assert forall s :: s in names <==> s in names[..n] || s == names[n];
      m[names[n] := (if names[n] in m then m[names[n]] else 0) + 1]
  }

  /** Assigning the next index extends the index table. */
  lemma IndexMapStep(rs: seq<Label>, l: Label)
    ensures IndexMap(rs + [l]) == IndexMap(rs)[|rs| := l]
  {
    assert (rs + [l])[..|rs|] == rs;
  }

  /** Assigning the next key extends the last-wins map. */
  lemma LastWinsStep<K(!new), V>(ks: seq<K>, vs: seq<V>, k: K, v: V)
    requires |ks| == |vs|
    ensures LastWins(ks + [k], vs + [v]) == LastWins(ks, vs)[k := v]
  {
    assert (ks + [k])[..|ks|] == ks;
    assert (vs + [v])[..|vs|] == vs;
  }

  /** Reading one more label into `label_map_ids`. */
  lemma IdMapPrefixStep(ls: seq<Label>, i: nat)
    requires i < |ls|
    ensures IdMap(ls[..i + 1]) == IdMap(ls[..i])[ls[i].id := ls[i]]
  {
    assert ls[..i + 1] == ls[..i] + [ls[i]];
    assert Ids(ls[..i + 1]) == Ids(ls[..i]) + [ls[i].id];
    LastWinsStep(Ids(ls[..i]), ls[..i], ls[i].id, ls[i]);
  }

  /** Reading one more label into `legacy_label_map_names`. */
  lemma LegacyNamesPrefixStep(ls: seq<Label>, i: nat)
    requires i < |ls|
    ensures LegacyNames(ls[..i + 1])
         == Register(Register(LegacyNames(ls[..i]), Underscored(ls[i].name), ls[i]), ls[i].name, ls[i])
  {
    assert ls[..i + 1][..i] == ls[..i];
  }

  /** One more string bumps its count by one, as `counts[s] += 1` does on a defaultdict(int). */
  lemma CountMapAppend(names: seq<string>, s: string)
    ensures CountMap(names + [s]) == CountMap(names)[s := (if s in CountMap(names) then CountMap(names)[s] else 0) + 1]
  {
    var ns := names + [s];
    assert ns[..|ns| - 1] == names;
  }

  /** The counter after the (j+1)-th ModelAPI label: one more for that string. */
  lemma CountMapPrefixStep(names: seq<string>, j: nat)
    requires j < |names|
    ensures CountMap(names[..j + 1]) == CountMap(names[..j])[names[j] := Count(names[..j], names[j]) + 1]
  {
    assert names[..j + 1] == names[..j] + [names[j]];
    CountMapAppend(names[..j], names[j]);
  }

  /** The string table after the (j+1)-th ModelAPI label: that string now maps to its label. */
  lemma LastWinsPrefixStep<V>(names: seq<string>, j: nat, vs: seq<V>, v: V)
    requires j < |names| && |vs| == j
    ensures LastWins(names[..j + 1], vs + [v]) == LastWins(names[..j], vs)[names[j] := v]
  {
    assert names[..j + 1] == names[..j] + [names[j]];
    LastWinsStep(names[..j], vs, names[j], v);
  }

  /** The counter read at the start of a round is the number of earlier
      occurrences of the string, so the lookup is `ResolveAt`. */
  lemma LoadLookup(ids: map<string, Label>, legacy: map<string, seq<Label>>, names: seq<string>, j: nat,
                   counts: map<string, nat>)
    requires j < |names| && counts == CountMap(names[..j])
    ensures (if names[j] in counts then counts[names[j]] else 0) == Count(names[..j], names[j])
    ensures ResolveLabel(ids, legacy, names[j], if names[j] in counts then counts[names[j]] else 0)
         == ResolveAt(ids, legacy, names, j)
  {
  }

  /** After a round that resolved the string to `l`, the tables describe one
      more ModelAPI label. */
  lemma LoadStep(ids: map<string, Label>, legacy: map<string, seq<Label>>, names: seq<string>, j: nat,
                 rs: seq<Label>, idx: map<int, Label>, strs: map<string, Label>, counts: map<string, nat>,
                 pos: nat, l: Label)
    requires j < |names| && |rs| == j
    requires ResolveModelLabels(ids, legacy, names[..j]) == Ok(rs)
    requires idx == IndexMap(rs) && strs == LastWins(names[..j], rs) && counts == CountMap(names[..j])
    requires pos == Count(names[..j], names[j]) && ResolveAt(ids, legacy, names, j) == Ok(l)
    ensures ResolveModelLabels(ids, legacy, names[..j + 1]) == Ok(rs + [l])
    ensures idx[j := l] == IndexMap(rs + [l])
    ensures strs[names[j] := l] == LastWins(names[..j + 1], rs + [l])
    ensures counts[names[j] := pos + 1] == CountMap(names[..j + 1])
  {
    assert ResolveModelLabels(ids, legacy, names[..j + 1]) == Ok(rs + [l]) by {
      ResolveModelLabelsStep(ids, legacy, names, j, rs, l);
    }
    assert idx[j := l] == IndexMap(rs + [l]) by {
      IndexMapStep(rs, l);
    }
    assert strs[names[j] := l] == LastWins(names[..j + 1], rs + [l]) by {
      LastWinsPrefixStep(names, j, rs, l);
    }
    assert counts[names[j] := pos + 1] == CountMap(names[..j + 1]) by {
      CountMapPrefixStep(names, j);
    }
  }

  /** The tables before the first round. */
  lemma LoadStart(ids: map<string, Label>, legacy: map<string, seq<Label>>, names: seq<string>)
    ensures ResolveModelLabels(ids, legacy, names[..0]) == Ok([])
    ensures IndexMap([]) == map[] && LastWins<string, Label>(names[..0], []) == map[]
    ensures CountMap(names[..0]) == map[]
  {
    assert names[..0] == [];
  }

  // ---------------------------------------------------------------------------
  // Consequences for the converter's users
  // ---------------------------------------------------------------------------

  /** With legacy names only, the k-th occurrence of a name picks the k-th label
      listed under it. */
  lemma {:induction false} DuplicateNamesResolveInTurn(ls: seq<Label>, names: seq<string>, j: nat)
    requires j < |names|
    requires names[j] != OtxEmptyLabelName
    requires forall l :: l in ls ==> l.id != names[j]
    requires Count(names[..j], names[j]) < |LegacyMatches(ls, names[j])|
    ensures ResolveAt(IdMap(ls), LegacyLabelMap(ls, EmptyLabel(ls)), names, j)
         == Ok(LegacyMatches(ls, names[j])[Count(names[..j], names[j])])
  {
    ResolveAgainstLabelList(ls, names[j], Count(names[..j], names[j]));
  }
}
