# Ph-like ALL and IKZF1 PLUS decision logic, in Dafny

This project models `logic.ts`, the decision core of a leukemia genetics
helper. The file holds two pure classifiers. Each turns structured genomic
alteration data into a `DecisionResult`. A result has a status (positive,
negative or neutral), a label, a risk string, and optional subtype, detail
and therapy fields.

- `PhLikeDecision` takes the list of altered gene symbols. It checks them
  against a JAK-STAT table (8 symbols) and an ABL-class table (6 symbols).
  Any gene at all makes the result positive. The subtype is chosen by
  priority: ABL-class (dasatinib), then JAK-STAT (ruxolitinib), then
  "其他 Ph-like" with no therapy.
- `IKZF1PlusDecision` takes a record of ten boolean flags (eight deletions,
  the DUX4 rearrangement and iAMP21) and a five-gene PAR1 panel, where each gene is 'none', 'del' or 'dup'. It runs an 8-rule
  cascade, and the first rule that fires wins.

Modules:

- `Decision` (decision.dfy): the shared result type, plus `AnyOf`.
  `AnyOf` models `Array.prototype.some` as a left-to-right scan.
- `PhLike` (ph_like.dfy): the gene tables, the classifier and its
  properties.
- `Ikzf1Plus` (ikzf1_plus.dfy): the record types, one constant per rule
  outcome, the cascade written in the source's order, and its properties.
- `Ikzf1Cascade` (ikzf1_cascade.dfy): the same eight rules as an ordered
  table with one generic first-match evaluator. It is proved equal to the
  cascade and states rule priority.

Naming: `label` and `type` are reserved words in Dafny, so the fields are
called `title` and `subtype`. The gene status `'none'` is `Absent`.
String literals are the source's own, Chinese text included. A field the
source leaves undefined is `None`.

Rules 5 (IKZF1 + BTG1 double deletion) and 8 (simple IKZF1 deletion) can
never be the outcome. Rule 4 (GEN-PR) fires for every record with an IKZF1
deletion, and it comes first. The model keeps the source's order and proves
this rather than reordering the rules. As a consequence, the BTG1 flag
never changes the outcome.

## Model

| member | source | states |
|---|---|---|
| `Decision.AnyOf` | logic.ts:19-21 | `some` is true exactly when some element satisfies the predicate |
| `Decision.AnyOfMembership` | logic.ts:19-21 | `some` depends only on which values occur, not on their order or count |
| `PhLike.PhLikeDecision` | logic.ts:15-57 | never neutral, never a detail; a negative result is exactly the '非 Ph-like ALL' outcome; a positive result has label 'Ph-like ALL 阳性', risk 'IR/HR (中高危)' and a subtype |
| `PhLike.TablesDisjoint` | logic.ts:16-17 | no symbol is in both the JAK-STAT and the ABL-class table |
| `PhLike.PositiveIffNonEmpty` | logic.ts:19-56 | positive iff the list is non-empty; the empty list gives negative, '常规风险', no subtype, no therapy |
| `PhLike.AblClassTakesPriority` | logic.ts:27-33 | any ABL-class gene gives positive, subtype 'ABL-class', dasatinib, even with JAK-STAT genes present |
| `PhLike.JakStatWithoutAblClass` | logic.ts:34-41 | a JAK-STAT gene and no ABL-class gene gives 'JAK-STAT (如 CRLF2+)' with ruxolitinib |
| `PhLike.OnlyGenesOutsideTables` | logic.ts:21-49 | a non-empty list of genes outside both tables gives positive, '其他 Ph-like', no therapy |
| `PhLike.TherapyIffTableHit` | logic.ts:24-48 | a therapy is attached iff some gene is in one of the two tables |
| `PhLike.OnlyMembershipMatters` | logic.ts:19-21 | two lists with the same genes give the same result, whatever the order or repeats |
| `Ikzf1Plus.Ikzf1PlusDecision` | logic.ts:82-180 | never a subtype; a therapy is present iff the outcome is IKZF1 PLUS |
| `Ikzf1Plus.Par1Scans` | logic.ts:83-84 | the `some` scans over the PAR1 values hold iff one of the five named genes is 'del' (resp. 'dup') |
| `Ikzf1Plus.Iamp21Overrides` | logic.ts:87-94 | iAMP21 gives the iAMP21 outcome (positive, 'HR (高危)') whatever the other fields hold |
| `Ikzf1Plus.ProtectiveOverrides` | logic.ts:97-104 | without iAMP21, ERG deletion or DUX4 rearrangement gives exactly the rule-2 outcome: negative 'Standard/Low (标/低危)', titled ERG if ERG is deleted else DUX4, even when IKZF1 PLUS would hold |
| `Ikzf1Plus.Ikzf1PlusExactly` | logic.ts:106-121 | IKZF1 PLUS iff no iAMP21/ERG/DUX4, IKZF1 deleted, and CDKN2A/B, PAX5 or a PAR1 gene deleted |
| `Ikzf1Plus.GenPrExactly` | logic.ts:123-133 | GEN-PR iff no earlier rule fires and IKZF1, a PAR1 gene, EBF1 or RB1 is deleted |
| `Ikzf1Plus.DeadRules` | logic.ts:135-173 | no input yields the 'IKZF1 + BTG1 双缺失' or 'IKZF1 缺失 (Simple)' outcome |
| `Ikzf1Plus.Btg1Irrelevant` | logic.ts:135-143 | flipping the BTG1 flag never changes the outcome |
| `Ikzf1Plus.Par1DupExactly` | logic.ts:145-153 | 'PAR1 重复' iff some PAR1 gene is 'dup', none is 'del', and none of iAMP21, ERG, DUX4, IKZF1, EBF1, RB1 is set |
| `Ikzf1Plus.Etv6Exactly` | logic.ts:155-163 | the ETV6 outcome iff ETV6 is deleted and no earlier rule fires |
| `Ikzf1Plus.DefaultExactly` | logic.ts:175-179 | the neutral default iff no rule fires; the all-clear record gets it |
| `Ikzf1Plus.StatusClosedForm` | logic.ts:82-180 | positive iff iAMP21, or no ERG/DUX4 and a GEN-PR deletion; negative iff protective marker, or ETV6 alone with no GEN-PR deletion or PAR1 duplication |
| `Ikzf1Cascade.FirstFiring` | logic.ts:86-173 | the index returned is the first rule of the table that fires, or the table length when none does |
| `Ikzf1Cascade.DecisionIsCascade` | logic.ts:82-180 | the if-cascade equals the rule table evaluated first-match-wins in the source's order |
| `Ikzf1Cascade.OutcomesDistinct` | logic.ts:88-172 | different rules have outcomes with different labels |
| `Ikzf1Cascade.Priority` | logic.ts:86-173 | a rule that fires decides the outcome iff no earlier rule fires |
| `Ikzf1Cascade.Rules5And8Unreachable` | logic.ts:125-173 | rules 5 and 8 are satisfiable on their own, yet neither is ever the first rule to fire |

## Left out

- App.tsx is the React interface: state, tabs, toggles, the modal and the
  static citation text. It only supplies input to the classifiers and
  displays their output.
- The summary recommendations in App.tsx (lines 383-390) are not modelled.
  Their test `ikResult.risk === 'HR'` can never match, because every
  high-risk outcome's risk is 'HR (高危)' or 'HR (极高危)'.
- Determinism and statelessness are not stated as lemmas. Both classifiers
  are Dafny functions, so they hold by construction.
- JavaScript's `therapy: undefined` key (logic.ts:48) is modelled as an
  absent therapy (`None`). The model does not distinguish a key set to
  `undefined` from a missing key.
