/**
 * Turning the values of the two input forms into the numeric rows that the
 * scalers and models receive: the "Yes"/"No" flags, the employment one-hot
 * columns, and the column order of each row.
 */
module Encoding {
  import opened Results

  /** Column order of the risk-score regressor's input frame. */
  const RiskCols: seq<string> := [
    "EmploymentStatus_Unemployed", "EmploymentStatus_Self-Employed", "EmploymentStatus_Employed",
    "MonthlyIncome", "NetWorth", "DebtToIncomeRatio", "CreditScore", "CreditCardUtilizationRate",
    "PreviousLoanDefaults", "BankruptcyHistory", "LengthOfCreditHistory", "LoanAmount",
    "LoanDurationYears", "InterestRate"]

  /** Column order of the approval classifier's input frame. */
  const ApprovalCols: seq<string> := [
    "RiskScore", "DebtToIncomeRatio", "BankruptcyHistory", "CreditScore", "NetWorth",
    "MonthlyIncome", "LoanAmount", "InterestRate", "PreviousLoanDefaults", "CreditCardUtilizationRate"]

  /** The employment categories, in the order of their one-hot columns. */
  const EmploymentStatuses: seq<string> := ["Unemployed", "Self-Employed", "Employed"]

  /** What the risk-scoring form hands over on submission. */
  datatype RiskForm = RiskForm(
    employmentStatus: string,
    monthlyIncome: real,
    netWorth: real,
    creditScore: int,
    lengthOfCreditHistory: int,
    creditCardUtilizationRate: real,
    bankruptcyHistory: string,
    previousLoanDefaults: string,
    debtToIncomeRatio: real,
    loanAmount: real,
    loanDurationYears: int,
    interestRate: real)

  /** What the loan-approval form hands over on submission. */
  datatype ApprovalForm = ApprovalForm(
    bankruptcyHistory: string,
    previousLoanDefaults: string,
    creditCardUtilizationRate: real,
    creditScore: int,
    debtToIncomeRatio: real,
    netWorth: real,
    monthlyIncome: real,
    loanAmount: real,
    interestRate: real,
    riskScore: real)

  /** One key/value pair of the dictionary a one-row frame is built from. */
  datatype Field = Field(name: string, value: real)

  /** No string occurs twice. */
  predicate DistinctNames(names: seq<string>) {
    forall i, j :: 0 <= i < j < |names| ==> names[i] != names[j]
  }

  /** The keys of a dictionary, in insertion order: the frame's columns. */
  function Names(record: seq<Field>): (names: seq<string>)
    ensures |names| == |record|
    ensures forall i :: 0 <= i < |record| ==> names[i] == record[i].name
  {
    seq(|record|, i requires 0 <= i < |record| => record[i].name)
  }

  /** The values of a dictionary, in insertion order: the frame's one row. */
  function Values(record: seq<Field>): (values: seq<real>)
    ensures |values| == |record|
    ensures forall i :: 0 <= i < |record| ==> values[i] == record[i].value
  {
    seq(|record|, i requires 0 <= i < |record| => record[i].value)
  }

  /** Dictionary lookup by key; `None` for a key that is absent. */
  function Lookup(record: seq<Field>, name: string): (v: Option<real>)
    ensures v.None? <==> name !in Names(record)
  {
    if record == [] then None
    else if record[0].name == name then Some(record[0].value)
    else
      assert Names(record) == [record[0].name] + Names(record[1..]);
      Lookup(record[1..], name)
  }

  /** With distinct keys, the key at position `i` looks up the value at position `i`. */
  lemma {:induction false} LookupAt(record: seq<Field>, i: nat)
    requires DistinctNames(Names(record))
    requires i < |record|
    ensures Lookup(record, record[i].name) == Some(record[i].value)
  {
    if i > 0 {
      var tail := record[1..];
      assert record[0].name != record[i].name by {
        assert Names(record)[0] != Names(record)[i];
      }
      assert DistinctNames(Names(tail)) by {
        forall a, b | 0 <= a < b < |tail| ensures Names(tail)[a] != Names(tail)[b] {
          assert Names(record)[a + 1] != Names(record)[b + 1];
        }
      }
      LookupAt(tail, i - 1);
    }
  }

  /**
   * Relabelling a dictionary's row with column names that are its own keys,
   * in its own order, puts every value under its own key.
   */
  lemma RelabelKeepsValues(record: seq<Field>, cols: seq<string>)
    requires Names(record) == cols && DistinctNames(cols)
    ensures forall i :: 0 <= i < |cols| ==> Lookup(record, cols[i]) == Some(Values(record)[i])
  {
    forall i | 0 <= i < |cols| ensures Lookup(record, cols[i]) == Some(Values(record)[i]) {
      LookupAt(record, i);
    }
  }

  /** `yes_no_encode`: 1 exactly for the string "Yes", compared case-sensitively. */
  function YesNoEncode(value: string): (bit: int)
    ensures bit == 0 || bit == 1
    ensures bit == 1 <==> value == "Yes"
  {
    if value == "Yes" then 1 else 0
  }

  /**
   * The three employment columns, in the order Unemployed, Self-Employed,
   * Employed. A status from the form's list sets exactly its own column; any
   * other string sets none.
   */
  function EmploymentOneHot(status: string): (columns: seq<int>)
    ensures |columns| == |EmploymentStatuses|
    ensures forall k :: 0 <= k < |columns| ==> columns[k] == 0 || columns[k] == 1
    ensures forall k :: 0 <= k < |columns| ==> (columns[k] == 1 <==> status == EmploymentStatuses[k])
    ensures status in EmploymentStatuses ==> columns[0] + columns[1] + columns[2] == 1
    ensures status !in EmploymentStatuses ==> columns == [0, 0, 0]
  {
    var unemployed := if status == "Unemployed" then 1 else 0;
    var selfEmployed := if status == "Self-Employed" then 1 else 0;
    var employed := if status == "Employed" then 1 else 0;
    [unemployed, selfEmployed, employed]
  }

  /** Each one-hot column is named after the status that sets it. */
  lemma OneHotColumnNames()
    ensures forall k :: 0 <= k < |EmploymentStatuses| ==> RiskCols[k] == "EmploymentStatus_" + EmploymentStatuses[k]
  {
  }

  lemma RiskColsDistinct()
    ensures DistinctNames(RiskCols)
  {
  }

  lemma ApprovalColsDistinct()
    ensures DistinctNames(ApprovalCols)
  {
  }

  /**
   * The dictionary the risk frame is built from. Its keys come in exactly the
   * order of `RiskCols`, so relabelling the scaled row with `RiskCols` keeps
   * every value under its own name.
   */
  function RiskRecord(form: RiskForm): (record: seq<Field>)
    ensures Names(record) == RiskCols
  {
    var oneHot := EmploymentOneHot(form.employmentStatus);
    [ Field("EmploymentStatus_Unemployed", oneHot[0] as real),
      Field("EmploymentStatus_Self-Employed", oneHot[1] as real),
      Field("EmploymentStatus_Employed", oneHot[2] as real),
      Field("MonthlyIncome", form.monthlyIncome),
      Field("NetWorth", form.netWorth),
      Field("DebtToIncomeRatio", form.debtToIncomeRatio),
      Field("CreditScore", form.creditScore as real),
      Field("CreditCardUtilizationRate", form.creditCardUtilizationRate),
      Field("PreviousLoanDefaults", YesNoEncode(form.previousLoanDefaults) as real),
      Field("BankruptcyHistory", YesNoEncode(form.bankruptcyHistory) as real),
      Field("LengthOfCreditHistory", form.lengthOfCreditHistory as real),
      Field("LoanAmount", form.loanAmount),
      Field("LoanDurationYears", form.loanDurationYears as real),
      Field("InterestRate", form.interestRate) ]
  }

  /** The dictionary the approval frame is built from, keyed in `ApprovalCols` order. */
  function ApprovalRecord(form: ApprovalForm): (record: seq<Field>)
    ensures Names(record) == ApprovalCols
  {
    [ Field("RiskScore", form.riskScore),
      Field("DebtToIncomeRatio", form.debtToIncomeRatio),
      Field("BankruptcyHistory", YesNoEncode(form.bankruptcyHistory) as real),
      Field("CreditScore", form.creditScore as real),
      Field("NetWorth", form.netWorth),
      Field("MonthlyIncome", form.monthlyIncome),
      Field("LoanAmount", form.loanAmount),
      Field("InterestRate", form.interestRate),
      Field("PreviousLoanDefaults", YesNoEncode(form.previousLoanDefaults) as real),
      Field("CreditCardUtilizationRate", form.creditCardUtilizationRate) ]
  }

  /**
   * The risk frame's one row: 14 entries; the employment block is one-hot
   * (exactly the status's own column for a listed status, no column
   * otherwise) and the two history flags are 1 exactly for "Yes".
   */
  function RiskRow(form: RiskForm): (row: seq<real>)
    ensures |row| == |RiskCols|
    ensures forall k :: 0 <= k < 3 ==> (row[k] == 1.0 <==> form.employmentStatus == EmploymentStatuses[k])
    ensures row[0] + row[1] + row[2] == if form.employmentStatus in EmploymentStatuses then 1.0 else 0.0
    ensures row[8] == (if form.previousLoanDefaults == "Yes" then 1.0 else 0.0)
    ensures row[9] == (if form.bankruptcyHistory == "Yes" then 1.0 else 0.0)
  {
    var oneHot := EmploymentOneHot(form.employmentStatus);
    var record := RiskRecord(form);
    assert record[0].value == oneHot[0] as real && record[1].value == oneHot[1] as real;
    assert record[2].value == oneHot[2] as real;
    assert record[8].value == YesNoEncode(form.previousLoanDefaults) as real;
    assert record[9].value == YesNoEncode(form.bankruptcyHistory) as real;
    Values(record)
  }

  /**
   * Relabelling the risk row with `RiskCols` keeps every value under its own
   * name: entry `i` is what the dictionary holds under `RiskCols[i]`.
   */
  lemma RiskRowAligned(form: RiskForm)
    ensures forall i :: 0 <= i < |RiskCols| ==> Lookup(RiskRecord(form), RiskCols[i]) == Some(RiskRow(form)[i])
  {
    RiskColsDistinct();
    RelabelKeepsValues(RiskRecord(form), RiskCols);
  }

  /**
   * The approval frame's one row: 10 entries, the risk score first and the two
   * history flags 1 exactly for "Yes".
   */
  function ApprovalRow(form: ApprovalForm): (row: seq<real>)
    ensures |row| == |ApprovalCols|
    ensures row[0] == form.riskScore
    ensures row[2] == (if form.bankruptcyHistory == "Yes" then 1.0 else 0.0)
    ensures row[8] == (if form.previousLoanDefaults == "Yes" then 1.0 else 0.0)
  {
    Values(ApprovalRecord(form))
  }

  /**
   * Relabelling the approval row with `ApprovalCols` keeps every value under
   * its own name: entry `i` is what the dictionary holds under `ApprovalCols[i]`.
   */
  lemma ApprovalRowAligned(form: ApprovalForm)
    ensures forall i :: 0 <= i < |ApprovalCols| ==> Lookup(ApprovalRecord(form), ApprovalCols[i]) == Some(ApprovalRow(form)[i])
  {
    ApprovalColsDistinct();
    RelabelKeepsValues(ApprovalRecord(form), ApprovalCols);
  }
}
