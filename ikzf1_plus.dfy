/** `IKZF1PlusDecision` of logic.ts: an 8-rule, first-match-wins cascade
    over a record of ten boolean alteration flags and a five-gene PAR1
    panel, written here in the source's own order. The rule table in module
    Ikzf1Cascade is the reference it is proved equal to. */
module Ikzf1Plus {
  import opened Decision

  /** `GeneStatus`: 'none', 'del' or 'dup'. */
  datatype GeneStatus = Absent | Del | Dup

  /** The PAR1 panel, one status per gene. */
  datatype Par1Genes = Par1Genes(
    crlf2: GeneStatus,
    csf2ra: GeneStatus,
    il3ra: GeneStatus,
    p2ry8: GeneStatus,
    shox: GeneStatus)
  {
    /** `Object.values(par1_genes)`, in declaration order. */
    function Values(): seq<GeneStatus> {
      [crlf2, csf2ra, il3ra, p2ry8, shox]
    }

    /** Some gene of the panel has status `s`. */
    predicate Has(s: GeneStatus) {
      crlf2 == s || csf2ra == s || il3ra == s || p2ry8 == s || shox == s
    }
  }

  /** `IKZF1Status`. */
  datatype Ikzf1Status = Ikzf1Status(
    ikzf1Del: bool,
    cdkn2abDel: bool,
    pax5Del: bool,
    par1Genes: Par1Genes,
    ebf1Del: bool,
    rb1Del: bool,
    btg1Del: bool,
    etv6Del: bool,
    ergDel: bool,
    dux4Rearrange: bool,
    iamp21: bool)

  /** The record with every flag false and every PAR1 gene 'none'. */
  const NoAlterations := Ikzf1Status(
    false, false, false, Par1Genes(Absent, Absent, Absent, Absent, Absent),
    false, false, false, false, false, false, false)

  predicate IsDel(s: GeneStatus) { s == Del }
  predicate IsDup(s: GeneStatus) { s == Dup }

  // The outcome of each rule, in cascade order, then the default.

  /** Rule 1. */
  const Iamp21Result := DecisionResult(
    Positive, "iAMP21 阳性", "HR (高危)", None,
    Some("NCCN-2024 指南标准：RUNX1 FISH探针信号≥5个或≥3个RUNX1扩增信号聚集。预后不良。"),
    None)

  /** Rule 2: the title names ERG when `ergDel` holds, DUX4 otherwise. */
  function ProtectiveResult(ergDel: bool): DecisionResult {
    DecisionResult(
      Negative,
      if ergDel then "伴 ERG 缺失 (保护因素)" else "伴 DUX4 重排 (预后良好)",
      "Standard/Low (标/低危)", None,
      Some("研究显示 ERG 缺失患者预后良好，即使同时有 IKZF1 突变，预后仍较好 (Leukemia 2014)。"),
      None)
  }

  const IntensifiedChemotherapy := Therapy(
    "化疗方案强化",
    "建议按高危组(HR)方案执行",
    "高危IKZF1 PLUS，考虑短期强化的诱导和巩固方案，并密切监测MRD。")

  /** Rule 3. */
  const Ikzf1PlusResult := DecisionResult(
    Positive, "IKZF1 PLUS", "HR (高危)", None,
    Some("符合 IKZF1 del 伴随 CDKN2A/B、PAX5 或 PAR1 缺失。预后较单纯缺失更差。"),
    Some(IntensifiedChemotherapy))

  /** Rule 4. */
  const GenPrResult := DecisionResult(
    Positive, "GEN-PR 预后不良组", "IR/HR (中高危)", None,
    Some("Blood 2014: IKZF1, PAR1, EBF1, RB1 中任何一个缺失均提示预后较差。"),
    None)

  /** Rule 5. */
  const Btg1DoubleResult := DecisionResult(
    Positive, "IKZF1 + BTG1 双缺失", "HR (极高危)", None,
    Some("BTG1 缺失是 GC 治疗反应的决定因子。双缺失预后较单纯缺失显著恶化。"),
    None)

  /** Rule 6. */
  const Par1DupResult := DecisionResult(
    Neutral, "PAR1 重复 (无显著意义)", "常规评估", None,
    Some("PAR1 区域的重复通常无意义，因为它与 ALL 的发病和预后没有直接关联。"),
    None)

  /** Rule 7. */
  const Etv6Result := DecisionResult(
    Negative, "ETV6 缺失", "Standard/Low (较好)", None,
    Some("在 ETV6-RUNX1 阳性 ALL 中，ETV6 基因缺失通常预示更好的预后。"),
    None)

  /** Rule 8. */
  const SimpleIkzf1Result := DecisionResult(
    Positive, "IKZF1 缺失 (Simple)", "IR (中危)", None,
    Some("IKZF1 基因缺失在 ALL 中预后不良 (NEJM 2009)，但不同类型的预后具有可变性。"),
    None)

  /** No rule matched. */
  const DefaultResult := DecisionResult(Neutral, "未见高危基因缺失", "常规风险评估", None, None, None)

  /** The cascade, rule by rule in the source's order. */
  function Ikzf1PlusDecision(status: Ikzf1Status): (r: DecisionResult)
    ensures r.subtype == None
    ensures r.therapy.Some? <==> r == Ikzf1PlusResult
  {
    var hasAnyPar1Del := AnyOf(status.par1Genes.Values(), IsDel);
    var hasAnyPar1Dup := AnyOf(status.par1Genes.Values(), IsDup);
    if status.iamp21 then
      Iamp21Result
    else if status.ergDel || status.dux4Rearrange then
      ProtectiveResult(status.ergDel)
    else
      var ikzf1PlusCoDels := status.cdkn2abDel || status.pax5Del || hasAnyPar1Del;
      if status.ikzf1Del && ikzf1PlusCoDels then
        Ikzf1PlusResult
      else
        var isGenPr := status.ikzf1Del || hasAnyPar1Del || status.ebf1Del || status.rb1Del;
        if isGenPr then
          GenPrResult
        else if status.ikzf1Del && status.btg1Del then
          Btg1DoubleResult
        else if hasAnyPar1Dup && !hasAnyPar1Del && !status.ikzf1Del then
          Par1DupResult
        else if status.etv6Del then
          Etv6Result
        else if status.ikzf1Del then
          SimpleIkzf1Result
        else
          DefaultResult
  }

  /** The `some` scans over the panel agree with naming the genes one by
      one. */
  lemma Par1Scans(p: Par1Genes)
    ensures AnyOf(p.Values(), IsDel) <==> p.Has(Del)
    ensures AnyOf(p.Values(), IsDup) <==> p.Has(Dup)
  {
  }

  /** iAMP21 decides the outcome whatever every other field holds. */
  lemma Iamp21Overrides(s: Ikzf1Status)
    requires s.iamp21
    ensures var r := Ikzf1PlusDecision(s);
      r == Iamp21Result && r.status == Positive && r.risk == "HR (高危)"
  {
  }

  /** Without iAMP21, an ERG deletion or a DUX4 rearrangement gives the
      protective negative outcome, even when IKZF1 PLUS would otherwise hold;
      the title names ERG when it is deleted, DUX4 otherwise. */
  lemma ProtectiveOverrides(s: Ikzf1Status)
    requires !s.iamp21 && (s.ergDel || s.dux4Rearrange)
    ensures var r := Ikzf1PlusDecision(s);
      && r == ProtectiveResult(s.ergDel)
      && r.status == Negative
      && r.risk == "Standard/Low (标/低危)"
      && r.title == (if s.ergDel then "伴 ERG 缺失 (保护因素)" else "伴 DUX4 重排 (预后良好)")
  {
  }

  /** IKZF1 PLUS holds exactly when iAMP21, ERG and DUX4 are all absent,
      IKZF1 is deleted and at least one of CDKN2A/B, PAX5 or a PAR1 gene is
      deleted. */
  lemma Ikzf1PlusExactly(s: Ikzf1Status)
    ensures var r := Ikzf1PlusDecision(s);
      r == Ikzf1PlusResult <==>
        && !s.iamp21 && !s.ergDel && !s.dux4Rearrange
        && s.ikzf1Del
        && (s.cdkn2abDel || s.pax5Del || s.par1Genes.Has(Del))
  {
    Par1Scans(s.par1Genes);
  }

  /** GEN-PR holds exactly when no earlier rule fires and one of IKZF1, a
      PAR1 gene, EBF1 or RB1 is deleted. */
  lemma GenPrExactly(s: Ikzf1Status)
    ensures var coDel := s.cdkn2abDel || s.pax5Del || s.par1Genes.Has(Del);
      Ikzf1PlusDecision(s) == GenPrResult <==>
        && !s.iamp21 && !s.ergDel && !s.dux4Rearrange
        && !(s.ikzf1Del && coDel)
        && (s.ikzf1Del || s.par1Genes.Has(Del) || s.ebf1Del || s.rb1Del)
  {
    Par1Scans(s.par1Genes);
  }

  /** Rules 5 and 8 never decide: any record with an IKZF1 deletion is
      caught by rule 4 or an earlier rule. */
  lemma DeadRules(s: Ikzf1Status)
    ensures Ikzf1PlusDecision(s) != Btg1DoubleResult
    ensures Ikzf1PlusDecision(s) != SimpleIkzf1Result
    ensures Ikzf1PlusDecision(s).title != "IKZF1 + BTG1 双缺失"
    ensures Ikzf1PlusDecision(s).title != "IKZF1 缺失 (Simple)"
  {
  }

  /** Since rule 5 is dead, the BTG1 flag never changes the outcome. */
  lemma Btg1Irrelevant(s: Ikzf1Status)
    ensures Ikzf1PlusDecision(s.(btg1Del := !s.btg1Del)) == Ikzf1PlusDecision(s)
  {
  }

  /** The PAR1-duplication outcome holds exactly when some PAR1 gene is
      duplicated, none is deleted and none of iAMP21, ERG, DUX4, IKZF1, EBF1,
      RB1 is set. */
  lemma Par1DupExactly(s: Ikzf1Status)
    ensures Ikzf1PlusDecision(s) == Par1DupResult <==>
      && !s.iamp21 && !s.ergDel && !s.dux4Rearrange
      && !s.ikzf1Del && !s.par1Genes.Has(Del) && !s.ebf1Del && !s.rb1Del
      && s.par1Genes.Has(Dup)
  {
    Par1Scans(s.par1Genes);
  }

  /** The ETV6 outcome holds exactly when ETV6 is deleted and no earlier
      rule fires. */
  lemma Etv6Exactly(s: Ikzf1Status)
    ensures Ikzf1PlusDecision(s) == Etv6Result <==>
      && !s.iamp21 && !s.ergDel && !s.dux4Rearrange
      && !s.ikzf1Del && !s.par1Genes.Has(Del) && !s.ebf1Del && !s.rb1Del
      && !s.par1Genes.Has(Dup)
      && s.etv6Del
  {
    Par1Scans(s.par1Genes);
  }

  /** The default holds exactly when no rule fires; CDKN2A/B, PAX5 and BTG1
      alone never leave it. The all-clear record gets it. */
  lemma DefaultExactly(s: Ikzf1Status)
    ensures Ikzf1PlusDecision(s) == DefaultResult <==>
      && !s.iamp21 && !s.ergDel && !s.dux4Rearrange
      && !s.ikzf1Del && !s.par1Genes.Has(Del) && !s.ebf1Del && !s.rb1Del
      && !s.par1Genes.Has(Dup)
      && !s.etv6Del
    ensures Ikzf1PlusDecision(NoAlterations) == DefaultResult
  {
    Par1Scans(s.par1Genes);
    Par1Scans(NoAlterations.par1Genes);
  }

  /** The status in closed form: positive for iAMP21, or for any of the
      GEN-PR deletions when ERG and DUX4 are absent; negative for the
      protective markers and for ETV6 alone; neutral otherwise. */
  lemma StatusClosedForm(s: Ikzf1Status)
    ensures var r := Ikzf1PlusDecision(s);
      var genPr := s.ikzf1Del || s.par1Genes.Has(Del) || s.ebf1Del || s.rb1Del;
      && (r.status == Positive <==> s.iamp21 || (!s.ergDel && !s.dux4Rearrange && genPr))
      && (r.status == Negative <==>
            !s.iamp21 && (s.ergDel || s.dux4Rearrange
                          || (!genPr && !s.par1Genes.Has(Dup) && s.etv6Del)))
  {
    Par1Scans(s.par1Genes);
  }
}
