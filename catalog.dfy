/** The question catalog of the assessment: an ordered list of sections,
    each an ordered list of items with a field name, a prompt, the options
    offered and whether several options may be ticked. */
module Catalog {
  import opened Delimited

  /** Single-choice items are radio groups; checkbox items accept several
      options, stored comma-space joined. */
  datatype Kind = Single | Checkbox

  datatype Item = Item(name: string, text: string, options: seq<string>, kind: Kind)

  datatype Section = Section(title: string, items: seq<Item>)

  /** The contact fields (name, email, organization, contact number) that
      the progress denominator counts besides the questions. */
  const ContactFieldCount: nat := 4

  /** The catalog the form is built from, section by section. */
  const Questions: seq<Section> := [
    Section("Use Cases", [Q1, Q2]),
    Section("Data Readiness", [Q3, Q4, Q5]),
    Section("Technical Infrastructure", [Q6, Q7]),
    Section("Team Readiness", [Q8, Q9, Q10, Q11])
  ]

  const Q1 := Item("q1", "What is the main reason you’re considering AI in your organization?",
                   ["Efficiency", "Costs", "Decision-making", "Customer experience", "Not sure"], Single)
  const Q2 := Item("q2", "Do you already have areas or problems in mind where AI could help?",
                   ["Yes", "Somewhat", "No"], Single)
  const Q3 := Item("q3", "How is your organization’s data currently stored?",
                   ["Digital", "Mixed", "Paper", "Not sure"], Single)
  const Q4 := Item("q4", "Do you have enough data available for AI to work with?",
                   ["Yes", "Partially", "No", "Not sure"], Single)
  const Q5 := Item("q5", "Do you have data security or privacy measures in place?",
                   ["Yes", "Partially", "No", "Not sure"], Single)
  const Q6 := Item("q6", "Which tools or platforms do you currently use to manage operations?",
                   ["Microsoft 365 / Google Workspace", "CRM", "ERP", "None", "Other"], Checkbox)
  const Q7 := Item("q7", "Can your current systems support AI tools or integrations?",
                   ["Yes", "Somewhat", "No", "Not sure"], Single)
  const Q8 := Item("q8", "Does your team have technical expertise or experience with automation?",
                   ["Yes", "Partially", "No"], Single)
  const Q9 := Item("q9", "Is there leadership support for AI initiatives in your organization?",
                   ["Yes", "Partially", "No", "Not sure"], Single)
  const Q10 := Item("q10", "Are there resources (time, budget, staff) already allocated to AI projects?",
                    ["Yes", "In progress", "No", "Not sure"], Single)
  const Q11 := Item("q11", "Is there any training program or plan to support AI-related skills?",
                    ["Yes", "In development", "No"], Single)

  /** All items of all sections, in catalog order. */
  function AllItems(cs: seq<Section>): seq<Item>
  {
    if cs == [] then [] else cs[0].items + AllItems(cs[1..])
  }

  /** The field names of all items, in catalog order. */
  function Names(cs: seq<Section>): (ns: seq<string>)
    ensures |ns| == |AllItems(cs)|
    ensures forall i :: 0 <= i < |ns| ==> ns[i] == AllItems(cs)[i].name
  {
    var items := AllItems(cs);
    seq(|items|, i requires 0 <= i < |items| => items[i].name)
  }

  /** The number of items, section by section. */
  function ItemCount(cs: seq<Section>): nat
  {
    if cs == [] then 0 else |cs[0].items| + ItemCount(cs[1..])
  }

  /** The left fold `reduce((sum, section) => sum + section.items.length + 4, acc)`. */
  function TotalFrom(acc: nat, cs: seq<Section>): nat
    decreases |cs|
  {
    if cs == [] then acc else TotalFrom(acc + |cs[0].items| + 4, cs[1..])
  }

  /** The progress denominator as the form computes it (starting from 0). */
  function TotalQuestions(cs: seq<Section>): nat
  {
    TotalFrom(0, cs)
  }

  /** The denominator the fold was evidently meant to compute: every item
      once, plus the four contact fields once. */
  function TotalFields(cs: seq<Section>): (t: nat)
    ensures t >= ContactFieldCount
    ensures t == |AllItems(cs)| + ContactFieldCount
  {
    ItemCountIsLength(cs);
    ItemCount(cs) + ContactFieldCount
  }

  /** Pairwise distinct strings. */
  predicate Distinct(ns: seq<string>)
  {
    forall i, j :: 0 <= i < j < |ns| ==> ns[i] != ns[j]
  }

  /** What the form relies on: item names are unique across the catalog,
      every item offers at least one option, and every option is a
      non-empty string free of the ", " delimiter, so that a joined
      multi-select answer splits back into the options ticked. */
  predicate WellFormed(cs: seq<Section>)
  {
    && Distinct(Names(cs))
    && forall i :: 0 <= i < |AllItems(cs)| ==> OptionsOk(AllItems(cs)[i].options)
  }

  /** At least one option, each non-empty and free of the delimiter. */
  predicate OptionsOk(opts: seq<string>)
  {
    && |opts| > 0
    && forall o :: o in opts ==> o != "" && !HasDelim(o)
  }

  lemma {:induction false} ItemCountIsLength(cs: seq<Section>)
    ensures ItemCount(cs) == |AllItems(cs)|
  {
    if cs != [] {
      ItemCountIsLength(cs[1..]);
    }
  }

  /** The fold adds four per section, not four once. */
  lemma {:induction false} TotalFromCounts(acc: nat, cs: seq<Section>)
    ensures TotalFrom(acc, cs) == acc + ItemCount(cs) + 4 * |cs|
    decreases |cs|
  {
    if cs != [] {
      TotalFromCounts(acc + |cs[0].items| + 4, cs[1..]);
    }
  }

  lemma TotalQuestionsCounts(cs: seq<Section>)
    ensures TotalQuestions(cs) == ItemCount(cs) + 4 * |cs|
  {
    TotalFromCounts(0, cs);
  }

  /** The items of the catalog, flattened in order. */
  lemma QuizItems()
    ensures AllItems(Questions) == [Q1, Q2, Q3, Q4, Q5, Q6, Q7, Q8, Q9, Q10, Q11]
  {
    var cs := Questions;
    var s3 := cs[3..];
    assert s3[0] == cs[3] && s3[1..] == [];
    assert AllItems(s3) == [Q8, Q9, Q10, Q11];
    var s2 := cs[2..];
    assert s2[0] == cs[2] && s2[1..] == s3;
    assert AllItems(s2) == [Q6, Q7] + [Q8, Q9, Q10, Q11];
    var s1 := cs[1..];
    assert s1[0] == cs[1] && s1[1..] == s2;
    assert AllItems(s1) == [Q3, Q4, Q5] + [Q6, Q7, Q8, Q9, Q10, Q11];
    assert cs[1..] == s1;
  }

  /** The sections, their titles and their sizes. */
  lemma QuizSections()
    ensures |Questions| == 4
    ensures Questions[0].title == "Use Cases" && |Questions[0].items| == 2
    ensures Questions[1].title == "Data Readiness" && |Questions[1].items| == 3
    ensures Questions[2].title == "Technical Infrastructure" && |Questions[2].items| == 2
    ensures Questions[3].title == "Team Readiness" && |Questions[3].items| == 4
  {
  }

  /** Eleven items; the form's fold gives 27, the intended count 15. */
  lemma QuizTotals()
    ensures ItemCount(Questions) == 11
    ensures TotalQuestions(Questions) == 27
    ensures TotalFields(Questions) == 15
  {
    QuizItems();
    ItemCountIsLength(Questions);
    TotalQuestionsCounts(Questions);
  }

  /** Item names are q1 to q11, in order, and pairwise distinct. */
  lemma QuizNames()
    ensures Names(Questions) == ["q1", "q2", "q3", "q4", "q5", "q6", "q7", "q8", "q9", "q10", "q11"]
    ensures Distinct(Names(Questions))
  {
    QuizItems();
  }

  /** Only q6 is a checkbox item. */
  lemma QuizCheckbox()
    ensures forall i :: 0 <= i < |AllItems(Questions)| ==>
              (AllItems(Questions)[i].kind == Checkbox <==> AllItems(Questions)[i].name == "q6")
  {
    QuizItems();
  }

  /** The catalog satisfies the invariant the form relies on. */
  lemma QuizOptions()
    ensures forall i :: 0 <= i < |AllItems(Questions)| ==> OptionsOk(AllItems(Questions)[i].options)
  {
    QuizItems();
    Q1OptionsOk();
    Q2OptionsOk();
    Q3OptionsOk();
    Q4OptionsOk();
    Q5OptionsOk();
    Q6OptionsOk();
    Q7OptionsOk();
    Q8OptionsOk();
    Q9OptionsOk();
    Q10OptionsOk();
    Q11OptionsOk();
    var items := AllItems(Questions);
    forall i | 0 <= i < |items| ensures OptionsOk(items[i].options) {
      assert items[i] in items;
    }
  }

  /** Each item's options, one item at a time. */
  lemma Q1OptionsOk() ensures OptionsOk(Q1.options) { CommaFreeOptionsOk(Q1.options); }
  lemma Q2OptionsOk() ensures OptionsOk(Q2.options) { CommaFreeOptionsOk(Q2.options); }
  lemma Q3OptionsOk() ensures OptionsOk(Q3.options) { CommaFreeOptionsOk(Q3.options); }
  lemma Q4OptionsOk() ensures OptionsOk(Q4.options) { CommaFreeOptionsOk(Q4.options); }
  lemma Q5OptionsOk() ensures OptionsOk(Q5.options) { CommaFreeOptionsOk(Q5.options); }
  lemma Q6OptionsOk() ensures OptionsOk(Q6.options) { CommaFreeOptionsOk(Q6.options); }
  lemma Q7OptionsOk() ensures OptionsOk(Q7.options) { CommaFreeOptionsOk(Q7.options); }
  lemma Q8OptionsOk() ensures OptionsOk(Q8.options) { CommaFreeOptionsOk(Q8.options); }
  lemma Q9OptionsOk() ensures OptionsOk(Q9.options) { CommaFreeOptionsOk(Q9.options); }
  lemma Q10OptionsOk() ensures OptionsOk(Q10.options) { CommaFreeOptionsOk(Q10.options); }
  lemma Q11OptionsOk() ensures OptionsOk(Q11.options) { CommaFreeOptionsOk(Q11.options); }

  /** Options without any comma satisfy OptionsOk. */
  lemma CommaFreeOptionsOk(opts: seq<string>)
    requires |opts| > 0
    requires forall o :: o in opts ==> o != "" && ',' !in o
    ensures OptionsOk(opts)
  {
    forall o | o in opts ensures !HasDelim(o) {
      NoCommaNoDelim(o);
    }
  }

  lemma QuizWellFormed()
    ensures WellFormed(Questions)
  {
    QuizNames();
    QuizOptions();
  }
}
