/** `PhLikeDecision` of logic.ts: classifies a list of altered gene symbols
    as Ph-like ALL or not, and picks the targeted-therapy subtype by fixed
    priority (ABL-class before JAK-STAT before "other"). */
module PhLike {
  import opened Decision

  /** The JAK-STAT pathway table (8 symbols). */
  const JakStatList: seq<string> :=
    ["CRLF2", "EPOR", "JAK1", "JAK2", "JAK3", "TYK2", "SH2B3", "IL7R"]

  /** The ABL-class kinase table (6 symbols). */
  const AblClassList: seq<string> :=
    ["ABL1", "ABL2", "CSF1R", "PDGFRA", "PDGFRB", "FGFR1"]

  predicate InJakStat(g: string) { g in JakStatList }
  predicate InAblClass(g: string) { g in AblClassList }
  predicate InNeither(g: string) { !InJakStat(g) && !InAblClass(g) }

  const Dasatinib := Therapy(
    "达沙替尼 (Dasatinib)",
    "60-80 mg/m².d",
    "诱导缓解阶段(Induction)第3天起尽早加入")

  const Ruxolitinib := Therapy(
    "鲁索利替尼 (Ruxolitinib)",
    "40-50 mg/m².d (通常参考临床试验方案)",
    "诱导缓解或巩固治疗早期加入")

  /** The outcome when no gene is selected. */
  const NotPhLike := DecisionResult(Negative, "非 Ph-like ALL", "常规风险", None, None, None)

  /** The classifier: three `some` scans, then an if-chain. The therapy is
      `None` exactly where the source leaves `therapy` undefined. */
  function PhLikeDecision(selectedGenes: seq<string>): (r: DecisionResult)
    ensures r.status != Neutral && r.detail == None
    ensures r.status == Negative ==> r == NotPhLike
    ensures r.status == Positive ==>
      r.title == "Ph-like ALL 阳性" && r.risk == "IR/HR (中高危)" && r.subtype.Some?
  {
    var hasJakStat := AnyOf(selectedGenes, InJakStat);
    var hasAblClass := AnyOf(selectedGenes, InAblClass);
    var hasOthers := AnyOf(selectedGenes, InNeither);
    if hasJakStat || hasAblClass || hasOthers then
      var subtype :=
        if hasAblClass then "ABL-class"
        else if hasJakStat then "JAK-STAT (如 CRLF2+)"
        else "其他 Ph-like";
      var therapy :=
        if hasAblClass then Some(Dasatinib)
        else if hasJakStat then Some(Ruxolitinib)
        else None;
      DecisionResult(Positive, "Ph-like ALL 阳性", "IR/HR (中高危)", Some(subtype), None, therapy)
    else
      NotPhLike
  }

  /** The two tables share no symbol. */
  lemma TablesDisjoint(g: string)
    ensures !(InJakStat(g) && InAblClass(g))
  {
  }

  /** Every gene is in one table or in neither, so the result is positive
      exactly when the list is non-empty; an empty list gives the negative
      outcome with standard risk, no subtype and no therapy. */
  lemma PositiveIffNonEmpty(genes: seq<string>)
    ensures PhLikeDecision(genes).status == Positive <==> |genes| > 0
    ensures genes == [] ==> PhLikeDecision(genes) == NotPhLike
    ensures genes == [] ==> PhLikeDecision(genes).risk == "常规风险"
  {
  }

  /** Any ABL-class gene makes the subtype ABL-class with dasatinib, whether
      or not a JAK-STAT gene is also present. */
  lemma AblClassTakesPriority(genes: seq<string>, g: string)
    requires g in genes && InAblClass(g)
    ensures var r := PhLikeDecision(genes);
      r.status == Positive && r.subtype == Some("ABL-class") && r.therapy == Some(Dasatinib)
  {
  }

  /** A JAK-STAT gene with no ABL-class gene gives the JAK-STAT subtype with
      ruxolitinib. */
  lemma JakStatWithoutAblClass(genes: seq<string>, g: string)
    requires g in genes && InJakStat(g)
    requires forall h :: h in genes ==> !InAblClass(h)
    ensures var r := PhLikeDecision(genes);
      r.status == Positive && r.subtype == Some("JAK-STAT (如 CRLF2+)") && r.therapy == Some(Ruxolitinib)
  {
  }

  /** A non-empty list of genes outside both tables is positive with the
      "other" subtype and no therapy. */
  lemma OnlyGenesOutsideTables(genes: seq<string>)
    requires |genes| > 0
    requires forall h :: h in genes ==> InNeither(h)
    ensures var r := PhLikeDecision(genes);
      r.status == Positive && r.subtype == Some("其他 Ph-like") && r.therapy == None
  {
    AnyOfMembership(genes, InJakStat);
    AnyOfMembership(genes, InAblClass);
    AnyOfMembership(genes, InNeither);
    assert genes[0] in genes;
  }

  /** A therapy is attached exactly when some gene is in one of the two
      tables. */
  lemma TherapyIffTableHit(genes: seq<string>)
    ensures PhLikeDecision(genes).therapy.Some? <==>
            exists g :: g in genes && (InJakStat(g) || InAblClass(g))
  {
  }

  /** The classifier sees the list as a set: reordering or repeating genes
      does not change the outcome. */
  lemma OnlyMembershipMatters(a: seq<string>, b: seq<string>)
    requires forall g :: g in a <==> g in b
    ensures PhLikeDecision(a) == PhLikeDecision(b)
  {
    AnyOfMembership(a, InJakStat);
    AnyOfMembership(b, InJakStat);
    AnyOfMembership(a, InAblClass);
    AnyOfMembership(b, InAblClass);
    AnyOfMembership(a, InNeither);
    AnyOfMembership(b, InNeither);
  }
}
