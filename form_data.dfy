/** The answers of the form: an object from field name to string value,
    kept in insertion order (the order a JavaScript object lists its
    string keys in), and the change handler that updates it. */
module FormData {
  import opened Delimited

  datatype Option<T> = None | Some(value: T)

  datatype Entry = Entry(key: string, value: string)

  /** The keys, in insertion order. */
  function Keys(e: seq<Entry>): (ks: seq<string>)
    ensures |ks| == |e|
    ensures forall i :: 0 <= i < |e| ==> ks[i] == e[i].key
  {
    seq(|e|, i requires 0 <= i < |e| => e[i].key)
  }

  /** An object never holds the same key twice. */
  predicate DistinctKeys(e: seq<Entry>)
  {
    forall i, j :: 0 <= i < j < |e| ==> e[i].key != e[j].key
  }

  /** `formData[k]`: the value stored under `k`, if any. */
  function Lookup(e: seq<Entry>, k: string): (r: Option<string>)
    ensures r.Some? <==> k in Keys(e)
  {
    if e == [] then None
    else if e[0].key == k then Some(e[0].value)
    else Lookup(e[1..], k)
  }

  /** `{ ...e, [k]: v }`: a key already present keeps its place and takes
      the new value; a new key goes at the end. */
  function Put(e: seq<Entry>, k: string, v: string): seq<Entry>
  {
    if e == [] then [Entry(k, v)]
    else if e[0].key == k then [Entry(k, v)] + e[1..]
    else [e[0]] + Put(e[1..], k, v)
  }

  /** Reading back after Put sees the new value under `k` and the old value
      under every other key. */
  lemma {:induction false} PutLookup(e: seq<Entry>, k: string, v: string, j: string)
    ensures Lookup(Put(e, k, v), j) == if j == k then Some(v) else Lookup(e, j)
  {
    if e != [] && e[0].key != k {
      PutLookup(e[1..], k, v, j);
      assert Put(e, k, v)[1..] == Put(e[1..], k, v);
    }
  }

  /** Put keeps the order of the keys and appends `k` only if it is new. */
  lemma {:induction false} PutKeys(e: seq<Entry>, k: string, v: string)
    ensures Keys(Put(e, k, v)) == if k in Keys(e) then Keys(e) else Keys(e) + [k]
  {
    if e == [] {
    } else if e[0].key == k {
      assert Keys(Put(e, k, v)) == Keys(e);
    } else {
      PutKeys(e[1..], k, v);
      var t := Put(e[1..], k, v);
      assert Put(e, k, v) == [e[0]] + t;
      KeysCons(e[0], e[1..]);
      KeysCons(e[0], t);
      assert e == [e[0]] + e[1..];
      assert k in Keys(e) <==> k in Keys(e[1..]);
    }
  }

  lemma KeysCons(x: Entry, t: seq<Entry>)
    ensures Keys([x] + t) == [x.key] + Keys(t)
  {
  }

  /** Put keeps keys distinct. */
  lemma PutDistinct(e: seq<Entry>, k: string, v: string)
    requires DistinctKeys(e)
    ensures DistinctKeys(Put(e, k, v))
  {
    var r := Put(e, k, v);
    PutKeys(e, k, v);
    assert forall i :: 0 <= i < |r| ==> r[i].key == Keys(r)[i];
    assert forall i, j :: 0 <= i < j < |e| ==> Keys(e)[i] != Keys(e)[j];
  }

  /** `values.filter(v => v !== value)`. */
  function Remove(xs: seq<string>, v: string): (r: seq<string>)
    ensures v !in r
    ensures forall x :: x in r ==> x in xs
  {
    if xs == [] then []
    else if xs[0] == v then Remove(xs[1..], v)
    else [xs[0]] + Remove(xs[1..], v)
  }

  /** `a` is `b` with some elements left out, the rest in the same order. */
  predicate IsSubsequence(a: seq<string>, b: seq<string>)
  {
    a == [] || (b != [] && ((a[0] == b[0] && IsSubsequence(a[1..], b[1..])) || IsSubsequence(a, b[1..])))
  }

  /** Remove drops exactly the occurrences of `v`: every other option keeps
      its multiplicity and the survivors keep their relative order. */
  lemma {:induction false} RemoveKeepsOthers(xs: seq<string>, v: string)
    ensures multiset(Remove(xs, v)) == multiset(xs)[v := 0]
    ensures IsSubsequence(Remove(xs, v), xs)
  {
    if xs != [] {
      RemoveKeepsOthers(xs[1..], v);
      assert xs == [xs[0]] + xs[1..];
      assert multiset(xs) == multiset{xs[0]} + multiset(xs[1..]);
      if xs[0] != v {
        var r := Remove(xs, v);
        assert r[1..] == Remove(xs[1..], v);
      }
    }
  }

  /** The options currently ticked in a checkbox field: a missing or empty
      value reads as none, anything else is split at ", ". */
  function Selections(e: seq<Entry>, name: string): seq<string>
  {
    match Lookup(e, name)
    case Some(s) => if s != "" then Split(s) else []
    case None => []
  }

  /** The change handler: a checkbox ticks (appends) or unticks (removes)
      one option in the joined value; any other input overwrites the field. */
  function Change(e: seq<Entry>, name: string, value: string, isCheckbox: bool, checked: bool): seq<Entry>
  {
    if isCheckbox then
      var values := Selections(e, name);
      var updated := if checked then values + [value] else Remove(values, value);
      Put(e, name, Join(updated))
    else
      Put(e, name, value)
  }

  /** An option the form can store and read back unchanged. */
  predicate Storable(x: string)
  {
    x != "" && !HasDelim(x)
  }

  /** Storing joined options and reading them back gives the same options,
      when each of them is storable. */
  lemma SelectionsOfJoin(e: seq<Entry>, name: string, xs: seq<string>)
    requires forall i :: 0 <= i < |xs| ==> Storable(xs[i])
    ensures Selections(Put(e, name, Join(xs)), name) == xs
  {
    PutLookup(e, name, Join(xs), name);
    JoinEmpty(xs);
    if xs != [] {
      SplitJoin(xs);
    }
  }

  /** Every option read from a field is free of the delimiter. */
  lemma SelectionsClean(e: seq<Entry>, name: string)
    ensures forall i :: 0 <= i < |Selections(e, name)| ==> !HasDelim(Selections(e, name)[i])
  {
    match Lookup(e, name)
    case Some(s) => if s != "" { SplitPiecesClean(s); }
    case None =>
  }

  /** A change touches only the field it names: every other key reads as
      before, and the named key is present afterwards. */
  lemma ChangeOnlyNamed(e: seq<Entry>, name: string, value: string, isCheckbox: bool, checked: bool)
    ensures Lookup(Change(e, name, value, isCheckbox, checked), name).Some?
    ensures forall j :: j != name ==> Lookup(Change(e, name, value, isCheckbox, checked), j) == Lookup(e, j)
    ensures Keys(Change(e, name, value, isCheckbox, checked)) ==
              if name in Keys(e) then Keys(e) else Keys(e) + [name]
  {
    var r := Change(e, name, value, isCheckbox, checked);
    var stored := if isCheckbox then
                    Join(if checked then Selections(e, name) + [value] else Remove(Selections(e, name), value))
                  else value;
    assert r == Put(e, name, stored);
    forall j ensures Lookup(r, j) == if j == name then Some(stored) else Lookup(e, j) {
      PutLookup(e, name, stored, j);
    }
    PutKeys(e, name, stored);
  }

  /** A change keeps the keys distinct. */
  lemma ChangeDistinct(e: seq<Entry>, name: string, value: string, isCheckbox: bool, checked: bool)
    requires DistinctKeys(e)
    ensures DistinctKeys(Change(e, name, value, isCheckbox, checked))
  {
    if isCheckbox {
      var values := Selections(e, name);
      PutDistinct(e, name, Join(if checked then values + [value] else Remove(values, value)));
    } else {
      PutDistinct(e, name, value);
    }
  }

  /** A non-checkbox change stores exactly the value given. */
  lemma OverwriteStores(e: seq<Entry>, name: string, value: string, checked: bool)
    ensures Lookup(Change(e, name, value, false, checked), name) == Some(value)
  {
    PutLookup(e, name, value, name);
  }

  /** Ticking an option appends it after the options already ticked, in
      their order; a repeated tick is not collapsed. */
  lemma CheckAppends(e: seq<Entry>, name: string, value: string)
    requires Storable(value)
    ensures Selections(Change(e, name, value, true, true), name) == Selections(e, name) + [value]
  {
    var old_ := Selections(e, name);
    var xs := old_ + [value];
    SelectionsClean(e, name);
    forall i | 0 <= i < |xs| ensures !HasDelim(xs[i]) {
      if i < |old_| {
        assert xs[i] == old_[i];
      }
    }
    PutLookup(e, name, Join(xs), name);
    JoinEmpty(xs);
    SplitJoin(xs);
  }

  /** Ticking the same option twice stores it twice. */
  lemma CheckTwiceDuplicates(e: seq<Entry>, name: string, value: string)
    requires Storable(value)
    ensures Selections(Change(Change(e, name, value, true, true), name, value, true, true), name)
              == Selections(e, name) + [value, value]
  {
    CheckAppends(e, name, value);
    var e1 := Change(e, name, value, true, true);
    CheckAppends(e1, name, value);
  }

  /** The first tick on a missing or empty field stores the option alone. */
  lemma FirstCheck(e: seq<Entry>, name: string, value: string)
    requires Lookup(e, name) == None || Lookup(e, name) == Some("")
    ensures Lookup(Change(e, name, value, true, true), name) == Some(value)
  {
    PutLookup(e, name, Join([value]), name);
  }

  /** Unticking removes every occurrence of the option, whatever was stored. */
  lemma UncheckRemovesAll(e: seq<Entry>, name: string, value: string)
    ensures value !in Selections(Change(e, name, value, true, false), name)
  {
    var xs := Remove(Selections(e, name), value);
    PutLookup(e, name, Join(xs), name);
    SelectionsClean(e, name);
    forall i | 0 <= i < |xs| ensures !HasDelim(xs[i]) {
      assert xs[i] in Selections(e, name);
    }
    JoinEmpty(xs);
    if xs != [] && Join(xs) != "" {
      SplitJoin(xs);
    }
  }

  /** Unticking leaves the other options in their order and multiplicity. */
  lemma UncheckKeepsOthers(e: seq<Entry>, name: string, value: string)
    requires forall i :: 0 <= i < |Selections(e, name)| ==> Selections(e, name)[i] != ""
    ensures Selections(Change(e, name, value, true, false), name) == Remove(Selections(e, name), value)
    ensures multiset(Selections(Change(e, name, value, true, false), name))
              == multiset(Selections(e, name))[value := 0]
    ensures IsSubsequence(Selections(Change(e, name, value, true, false), name), Selections(e, name))
  {
    var old_ := Selections(e, name);
    var xs := Remove(old_, value);
    SelectionsClean(e, name);
    forall i | 0 <= i < |xs| ensures Storable(xs[i]) {
      assert xs[i] in old_;
    }
    SelectionsOfJoin(e, name, xs);
    RemoveKeepsOthers(old_, value);
  }

  /** Unticking the only option ticked leaves the empty string. */
  lemma UncheckOnly(e: seq<Entry>, name: string, value: string)
    requires Storable(value)
    requires Lookup(e, name) == Some(value)
    ensures Lookup(Change(e, name, value, true, false), name) == Some("")
  {
    SplitClean(value);
    assert Selections(e, name) == [value];
    assert Remove([value], value) == [];
    PutLookup(e, name, Join([]), name);
  }
}
