/** The progress bar: the number of answered fields as a whole percentage
    of a fixed denominator, capped at 100. */
module Progress {
  import opened FormData
  import opened Catalog

  /** The contact inputs of the form, by their `name` attributes. */
  const ContactFields: seq<string> := ["name", "email", "Organization", "country", "contact"]

  /** Every field the form can write: the contact inputs and the items. */
  function FormFields(cs: seq<Section>): set<string>
  {
    set k | k in ContactFields + Names(cs)
  }

  /** The fields a complete submission fills: the contact fields the
      denominator counts (all but the country) and every item. */
  function RequiredFields(cs: seq<Section>): set<string>
  {
    set k | k in RequiredContact + Names(cs)
  }

  /** The contact fields the intended denominator counts. */
  const RequiredContact: seq<string> := ["name", "email", "Organization", "contact"]

  /** The intended denominator's contact count is these fields: every
      contact field except the country. */
  lemma RequiredContactCount()
    ensures |RequiredContact| == ContactFieldCount
    ensures forall f :: f in RequiredContact <==> f in ContactFields && f != "country"
  {
  }

  /** `Object.values(formData).filter((val) => val && val !== '').length`:
      the number of non-empty values. */
  function Answered(e: seq<Entry>): (n: nat)
    ensures n <= |e|
  {
    if e == [] then 0
    else (if e[0].value != "" then 1 else 0) + Answered(e[1..])
  }

  /** `Math.min(100, Math.floor((answered / total) * 100))`, in exact
      integer arithmetic. */
  function Percent(answered: nat, total: nat): (p: nat)
    requires total > 0
    ensures p <= 100
  {
    var raw := answered * 100 / total;
    if raw < 100 then raw else 100
  }

  /** The bar is full exactly when every counted field is answered, and
      below that it shows the percentage rounded down. */
  lemma PercentSpec(answered: nat, total: nat)
    requires total > 0
    ensures Percent(answered, total) == 100 <==> answered >= total
    ensures Percent(answered, total) < 100 ==>
              Percent(answered, total) * total <= answered * 100 < (Percent(answered, total) + 1) * total
  {
    var raw := answered * 100 / total;
    DivBracket(answered * 100, total);
    if raw < 100 {
      MulLe(raw + 1, 100, total);
      MulCancel(answered, total, 100);
    } else {
      MulLe(100, raw, total);
      LeCancel(total, answered, 100);
    }
  }

  /** Integer division brackets its dividend between two consecutive
      multiples of the divisor. */
  lemma DivBracket(a: nat, t: nat)
    requires t > 0
    ensures (a / t) * t <= a < (a / t + 1) * t
  {
    assert a == (a / t) * t + a % t;
  }

  lemma MulLe(x: nat, y: nat, t: nat)
    requires x <= y
    ensures x * t <= y * t
  {
  }

  lemma LeCancel(x: nat, y: nat, t: nat)
    requires t > 0 && x * t <= y * t
    ensures x <= y
  {
  }

  /** More answers never lower the percentage. */
  lemma PercentMonotone(a: nat, b: nat, total: nat)
    requires total > 0 && a <= b
    ensures Percent(a, total) <= Percent(b, total)
  {
    var pa, pb := Percent(a, total), Percent(b, total);
    PercentSpec(a, total);
    PercentSpec(b, total);
    if pb < 100 {
      assert pa < 100;
      assert pa * total < (pb + 1) * total;
      MulCancel(pa, pb + 1, total);
    }
  }

  lemma MulCancel(x: nat, y: nat, t: nat)
    requires t > 0 && x * t < y * t
    ensures x < y
  {
  }

  /** Storing `v` under `k` changes the answered count only through the
      value `k` had before and the value it has now. */
  lemma {:induction false} AnsweredPut(e: seq<Entry>, k: string, v: string)
    ensures Answered(Put(e, k, v)) ==
              Answered(e)
              - (if Lookup(e, k).Some? && Lookup(e, k).value != "" then 1 else 0)
              + (if v != "" then 1 else 0)
  {
    if e != [] && e[0].key != k {
      AnsweredPut(e[1..], k, v);
      assert Put(e, k, v)[1..] == Put(e[1..], k, v);
    }
  }

  /** Filling a field never lowers the progress shown. */
  lemma ProgressGrows(e: seq<Entry>, k: string, v: string, total: nat)
    requires total > 0 && v != ""
    ensures Percent(Answered(e), total) <= Percent(Answered(Put(e, k, v)), total)
  {
    AnsweredPut(e, k, v);
    PercentMonotone(Answered(e), Answered(Put(e, k, v)), total);
  }

  /** With distinct keys drawn from `s`, at most |s| values are answered. */
  lemma {:induction false} AnsweredAtMost(e: seq<Entry>, s: set<string>)
    requires DistinctKeys(e)
    requires forall i :: 0 <= i < |e| ==> e[i].key in s
    ensures Answered(e) <= |s|
  {
    if e != [] {
      var rest := s - {e[0].key};
      forall i | 0 <= i < |e[1..]| ensures e[1..][i].key in rest {
        assert e[1..][i] == e[i + 1];
      }
      AnsweredAtMost(e[1..], rest);
    }
  }

  /** When every key of `r` holds a non-empty value, at least |r| values are
      answered. */
  lemma {:induction false} AnsweredAtLeast(e: seq<Entry>, r: set<string>)
    requires forall k :: k in r ==> Lookup(e, k).Some? && Lookup(e, k).value != ""
    ensures Answered(e) >= |r|
  {
    if e != [] {
      var rest := r - {e[0].key};
      forall k | k in rest ensures Lookup(e[1..], k).Some? && Lookup(e[1..], k).value != "" {
        assert Lookup(e, k) == Lookup(e[1..], k);
      }
      AnsweredAtLeast(e[1..], rest);
    }
  }

  /** A sequence of distinct strings has as many elements as its set. */
  lemma {:induction false} DistinctCard(xs: seq<string>)
    requires Distinct(xs)
    ensures |set x | x in xs| == |xs|
  {
    if xs != [] {
      DistinctCard(xs[1..]);
      assert (set x | x in xs) == {xs[0]} + (set x | x in xs[1..]);
      assert xs[0] !in xs[1..];
    }
  }

  lemma DistinctConcat(a: seq<string>, b: seq<string>)
    requires Distinct(a) && Distinct(b)
    requires forall x :: x in a ==> x !in b
    ensures Distinct(a + b)
  {
    forall i, j | 0 <= i < j < |a + b| ensures (a + b)[i] != (a + b)[j] {
      if j < |a| {
      } else if i < |a| {
        assert (a + b)[i] in a && (a + b)[j] in b;
      } else {
        assert (a + b)[i] == b[i - |a|] && (a + b)[j] == b[j - |a|];
      }
    }
  }

  /** A sequence has at least as many elements as its set. */
  lemma {:induction false} SetCardAtMost(xs: seq<string>)
    ensures |set x | x in xs| <= |xs|
  {
    if xs != [] {
      SetCardAtMost(xs[1..]);
      assert (set x | x in xs) == {xs[0]} + (set x | x in xs[1..]);
    }
  }

  /** For any catalog of two or more sections, the fold's denominator
      keeps the bar below 100% in every state the form can produce: it
      counts four contact fields per section, where the form has five in
      all. */
  lemma AsWrittenNeverFull(cs: seq<Section>, e: seq<Entry>)
    requires |cs| >= 2
    requires DistinctKeys(e)
    requires forall i :: 0 <= i < |e| ==> e[i].key in FormFields(cs)
    ensures TotalQuestions(cs) > 0 && Percent(Answered(e), TotalQuestions(cs)) < 100
  {
    AnsweredAtMost(e, FormFields(cs));
    SetCardAtMost(ContactFields + Names(cs));
    TotalQuestionsCounts(cs);
    ItemCountIsLength(cs);
    PercentSpec(Answered(e), TotalQuestions(cs));
  }

  /** A completely filled form under a catalog shaped like the quiz (four
      sections, eleven items, names distinct from each other and from the
      contact fields) shows 59%. */
  lemma AsWrittenCompleteForm(cs: seq<Section>, e: seq<Entry>)
    requires |cs| == 4 && |AllItems(cs)| == 11
    requires Distinct(ContactFields + Names(cs))
    requires DistinctKeys(e)
    requires forall i :: 0 <= i < |e| ==> e[i].key in FormFields(cs)
    requires forall k :: k in FormFields(cs) ==> Lookup(e, k).Some? && Lookup(e, k).value != ""
    ensures TotalQuestions(cs) == 27 && Percent(Answered(e), TotalQuestions(cs)) == 59
  {
    TotalQuestionsCounts(cs);
    ItemCountIsLength(cs);
    DistinctCard(ContactFields + Names(cs));
    AnsweredAtMost(e, FormFields(cs));
    AnsweredAtLeast(e, FormFields(cs));
  }

  /** With the intended denominator, filling every required field of any
      catalog whose names are distinct from each other and from the
      contact fields shows 100%. */
  lemma CorrectedCompleteForm(cs: seq<Section>, e: seq<Entry>)
    requires Distinct(RequiredContact + Names(cs))
    requires forall k :: k in RequiredFields(cs) ==> Lookup(e, k).Some? && Lookup(e, k).value != ""
    ensures Percent(Answered(e), TotalFields(cs)) == 100
  {
    DistinctCard(RequiredContact + Names(cs));
    AnsweredAtLeast(e, RequiredFields(cs));
    PercentSpec(Answered(e), TotalFields(cs));
  }

  /** The quiz meets the hypotheses of the two lemmas above. */
  lemma QuizFields()
    ensures |Questions| == 4 && |AllItems(Questions)| == 11
    ensures Distinct(ContactFields + Names(Questions))
    ensures Distinct(RequiredContact + Names(Questions))
  {
    QuizTotals();
    ItemCountIsLength(Questions);
    QuizNamesApart(ContactFields);
    QuizNamesApart(RequiredContact);
  }

  /** The item names stay distinct after any list of distinct names that
      do not start with 'q'. */
  lemma QuizNamesApart(fields: seq<string>)
    requires Distinct(fields)
    requires forall f :: f in fields ==> f != "" && f[0] != 'q'
    ensures Distinct(fields + Names(Questions))
  {
    QuizNames();
    DistinctConcat(fields, Names(Questions));
  }
}
