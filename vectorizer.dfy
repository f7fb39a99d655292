/** The feature vectorizer: from the eleven applicant values to the one-row
    record the model's features are selected from, and the selection itself. */
module Vectorizer {
  import opened Artifact

  /** The eleven values the form collects for one applicant. The categorical
      values are kept as the strings the form passes in. */
  datatype ApplicantInput = ApplicantInput(
    age: real,
    income: real,
    loanAmount: real,
    loanTenureMonths: real,
    avgDpdPerDelinquency: real,
    delinquencyRatio: real,
    creditUtilizationRatio: real,
    numOpenAccounts: real,
    residenceType: string,
    loanPurpose: string,
    loanType: string)

  /** The record built for one applicant, one field per column, in the order
      of `Columns`. */
  datatype FeatureRecord = FeatureRecord(
    age: real,
    loanTenureMonths: real,
    numberOfOpenAccounts: real,
    creditUtilizationRatio: real,
    loanToIncome: real,
    delinquencyRatio: real,
    avgDpdPerDelinquency: real,
    // one-hot flags; Mortgage, Auto and Secured are the baselines with no flag
    residenceTypeOwned: real,
    residenceTypeRented: real,
    loanPurposeEducation: real,
    loanPurposeHome: real,
    loanPurposePersonal: real,
    loanTypeUnsecured: real,
    // placeholders the artifact needs but no applicant value feeds
    numberOfDependants: real,
    yearsAtCurrentAddress: real,
    zipcode: real,
    sanctionAmount: real,
    processingFee: real,
    gst: real,
    netDisbursement: real,
    principalOutstanding: real,
    bankBalanceAtApplication: real,
    numberOfClosedAccounts: real,
    enquiryCount: real)

  /** The columns copied from the applicant or derived from its numbers. */
  const DirectColumns: seq<string> := [
    "age", "loan_tenure_months", "number_of_open_accounts",
    "credit_utilization_ratio", "loan_to_income", "delinquency_ratio",
    "avg_dpd_per_delinquency"]

  /** The one-hot flag columns. */
  const FlagColumns: seq<string> := [
    "residence_type_Owned", "residence_type_Rented",
    "loan_purpose_Education", "loan_purpose_Home", "loan_purpose_Personal",
    "loan_type_Unsecured"]

  /** The eleven placeholder columns. */
  const Placeholders: seq<string> := [
    "number_of_dependants", "years_at_current_address", "zipcode",
    "sanction_amount", "processing_fee", "gst", "net_disbursement",
    "principal_outstanding", "bank_balance_at_application",
    "number_of_closed_accounts", "enquiry_count"]

  /** The column names of the record, in the order the record lists them. */
  const Columns: seq<string> := DirectColumns + FlagColumns + Placeholders

  lemma DirectColumnsDistinct() ensures Distinct(DirectColumns) {}
  lemma FlagColumnsDistinct() ensures Distinct(FlagColumns) {}
  lemma PlaceholdersDistinct() ensures Distinct(Placeholders) {}
  lemma DirectAndFlagsDisjoint() ensures Disjoint(DirectColumns, FlagColumns) {}
  lemma DirectAndPlaceholdersDisjoint() ensures Disjoint(DirectColumns, Placeholders) {}
  lemma FlagsAndPlaceholdersDisjoint() ensures Disjoint(FlagColumns, Placeholders) {}

  /** Every column name of the record is distinct, as the keys of a dictionary are. */
  lemma ColumnsDistinct()
    ensures |Columns| == 24 && Distinct(Columns)
  {
    DirectColumnsDistinct();
    FlagColumnsDistinct();
    PlaceholdersDistinct();
    DirectAndFlagsDisjoint();
    DirectAndPlaceholdersDisjoint();
    FlagsAndPlaceholdersDisjoint();
    DistinctConcat(DirectColumns, FlagColumns);
    DisjointConcat(DirectColumns, FlagColumns, Placeholders);
    DistinctConcat(DirectColumns + FlagColumns, Placeholders);
  }

  /** The loan-to-income ratio, guarded so that it never divides by zero:
      a non-positive income gives 0. */
  function LoanToIncome(loanAmount: real, income: real): (r: real)
    ensures income > 0.0 ==> r * income == loanAmount
    ensures income <= 0.0 ==> r == 0.0
  {
    if income > 0.0 then loanAmount / income else 0.0
  }

  /** The indicator of one category. */
  function Flag(value: string, category: string): real
  {
    if value == category then 1.0 else 0.0
  }

  /** Builds the record for one applicant. */
  function Vectorize(x: ApplicantInput): (r: FeatureRecord)
    ensures r.age == x.age && r.loanTenureMonths == x.loanTenureMonths
    ensures r.numberOfOpenAccounts == x.numOpenAccounts
    ensures r.creditUtilizationRatio == x.creditUtilizationRatio
    ensures r.delinquencyRatio == x.delinquencyRatio
    ensures r.avgDpdPerDelinquency == x.avgDpdPerDelinquency
    ensures x.income > 0.0 ==> r.loanToIncome * x.income == x.loanAmount
    ensures x.income <= 0.0 ==> r.loanToIncome == 0.0
    ensures r.residenceTypeOwned == 1.0 <==> x.residenceType == "Owned"
    ensures r.residenceTypeRented == 1.0 <==> x.residenceType == "Rented"
    ensures r.loanPurposeEducation == 1.0 <==> x.loanPurpose == "Education"
    ensures r.loanPurposeHome == 1.0 <==> x.loanPurpose == "Home"
    ensures r.loanPurposePersonal == 1.0 <==> x.loanPurpose == "Personal"
    ensures r.loanTypeUnsecured == 1.0 <==> x.loanType == "Unsecured"
  {
    FeatureRecord(
      x.age, x.loanTenureMonths, x.numOpenAccounts, x.creditUtilizationRatio,
      LoanToIncome(x.loanAmount, x.income), x.delinquencyRatio, x.avgDpdPerDelinquency,
      Flag(x.residenceType, "Owned"), Flag(x.residenceType, "Rented"),
      Flag(x.loanPurpose, "Education"), Flag(x.loanPurpose, "Home"),
      Flag(x.loanPurpose, "Personal"), Flag(x.loanType, "Unsecured"),
      1.0, 1.0, 1.0, 1.0, 1.0, 1.0, 1.0, 1.0, 1.0, 1.0, 1.0)
  }

  /** The values of the record, in the order of `Columns`. */
  function Row(r: FeatureRecord): (row: seq<real>)
    ensures |row| == |Columns|
  {
    [r.age, r.loanTenureMonths, r.numberOfOpenAccounts, r.creditUtilizationRatio,
     r.loanToIncome, r.delinquencyRatio, r.avgDpdPerDelinquency,
     r.residenceTypeOwned, r.residenceTypeRented,
     r.loanPurposeEducation, r.loanPurposeHome, r.loanPurposePersonal,
     r.loanTypeUnsecured,
     r.numberOfDependants, r.yearsAtCurrentAddress, r.zipcode, r.sanctionAmount,
     r.processingFee, r.gst, r.netDisbursement, r.principalOutstanding,
     r.bankBalanceAtApplication, r.numberOfClosedAccounts, r.enquiryCount]
  }

  /** Every flag is 0 or 1, and each categorical value raises at most one flag
      of its group. */
  lemma FlagsOneHot(x: ApplicantInput)
    ensures var r := Vectorize(x);
      && (r.residenceTypeOwned == 0.0 || r.residenceTypeOwned == 1.0)
      && (r.residenceTypeRented == 0.0 || r.residenceTypeRented == 1.0)
      && (r.loanPurposeEducation == 0.0 || r.loanPurposeEducation == 1.0)
      && (r.loanPurposeHome == 0.0 || r.loanPurposeHome == 1.0)
      && (r.loanPurposePersonal == 0.0 || r.loanPurposePersonal == 1.0)
      && (r.loanTypeUnsecured == 0.0 || r.loanTypeUnsecured == 1.0)
      && r.residenceTypeOwned + r.residenceTypeRented <= 1.0
      && r.loanPurposeEducation + r.loanPurposeHome + r.loanPurposePersonal <= 1.0
  {
  }

  /** A value outside the flagged categories, the baseline ones included,
      raises no flag of its group, and only such a value does. */
  lemma BaselinesRaiseNoFlag(x: ApplicantInput)
    ensures var r := Vectorize(x);
      && (r.residenceTypeOwned == 0.0 && r.residenceTypeRented == 0.0
          <==> x.residenceType != "Owned" && x.residenceType != "Rented")
      && (r.loanPurposeEducation == 0.0 && r.loanPurposeHome == 0.0 && r.loanPurposePersonal == 0.0
          <==> x.loanPurpose != "Education" && x.loanPurpose != "Home" && x.loanPurpose != "Personal")
      && (r.loanTypeUnsecured == 0.0 <==> x.loanType != "Unsecured")
    ensures x.residenceType == "Mortgage" ==>
      Vectorize(x).residenceTypeOwned == 0.0 && Vectorize(x).residenceTypeRented == 0.0
    ensures x.loanPurpose == "Auto" ==>
      Vectorize(x).loanPurposeEducation == 0.0 && Vectorize(x).loanPurposeHome == 0.0
      && Vectorize(x).loanPurposePersonal == 0.0
    ensures x.loanType == "Secured" ==> Vectorize(x).loanTypeUnsecured == 0.0
  {
  }

  /** The eleven placeholder columns hold 1 for every applicant. */
  lemma PlaceholdersAreOne(x: ApplicantInput)
    ensures |Placeholders| == 11
    ensures forall j :: 13 <= j < |Columns| ==> Row(Vectorize(x))[j] == 1.0
  {
  }

  /** The direct columns' names are found at positions 0 to 6. */
  lemma DirectColumnPositions()
    ensures IndexOf(Columns, "age") == Some(0)
    ensures IndexOf(Columns, "loan_tenure_months") == Some(1)
    ensures IndexOf(Columns, "number_of_open_accounts") == Some(2)
    ensures IndexOf(Columns, "credit_utilization_ratio") == Some(3)
    ensures IndexOf(Columns, "loan_to_income") == Some(4)
    ensures IndexOf(Columns, "delinquency_ratio") == Some(5)
    ensures IndexOf(Columns, "avg_dpd_per_delinquency") == Some(6)
  {
    ColumnsDistinct();
    var c := Columns;
    assert c[0] == "age" && c[1] == "loan_tenure_months" && c[2] == "number_of_open_accounts";
    assert c[3] == "credit_utilization_ratio" && c[4] == "loan_to_income";
    assert c[5] == "delinquency_ratio" && c[6] == "avg_dpd_per_delinquency";
    IndexOfDistinct(c, 0);
    IndexOfDistinct(c, 1);
    IndexOfDistinct(c, 2);
    IndexOfDistinct(c, 3);
    IndexOfDistinct(c, 4);
    IndexOfDistinct(c, 5);
    IndexOfDistinct(c, 6);
  }

  /** The flag columns' names are found at positions 7 to 12. */
  lemma FlagColumnPositions()
    ensures IndexOf(Columns, "residence_type_Owned") == Some(7)
    ensures IndexOf(Columns, "residence_type_Rented") == Some(8)
    ensures IndexOf(Columns, "loan_purpose_Education") == Some(9)
    ensures IndexOf(Columns, "loan_purpose_Home") == Some(10)
    ensures IndexOf(Columns, "loan_purpose_Personal") == Some(11)
    ensures IndexOf(Columns, "loan_type_Unsecured") == Some(12)
  {
    ColumnsDistinct();
    var c := Columns;
    assert c[7] == "residence_type_Owned" && c[8] == "residence_type_Rented";
    assert c[9] == "loan_purpose_Education" && c[10] == "loan_purpose_Home";
    assert c[11] == "loan_purpose_Personal" && c[12] == "loan_type_Unsecured";
    IndexOfDistinct(c, 7);
    IndexOfDistinct(c, 8);
    IndexOfDistinct(c, 9);
    IndexOfDistinct(c, 10);
    IndexOfDistinct(c, 11);
    IndexOfDistinct(c, 12);
  }

  /** The direct columns of a record's row hold its direct fields. */
  lemma DirectFields(r: FeatureRecord)
    ensures Row(r)[0] == r.age && Row(r)[1] == r.loanTenureMonths
    ensures Row(r)[2] == r.numberOfOpenAccounts && Row(r)[3] == r.creditUtilizationRatio
    ensures Row(r)[4] == r.loanToIncome && Row(r)[5] == r.delinquencyRatio
    ensures Row(r)[6] == r.avgDpdPerDelinquency
  {
  }

  /** The flag columns of a record's row hold its one-hot flags. */
  lemma FlagFields(r: FeatureRecord)
    ensures Row(r)[7] == r.residenceTypeOwned && Row(r)[8] == r.residenceTypeRented
    ensures Row(r)[9] == r.loanPurposeEducation && Row(r)[10] == r.loanPurposeHome
    ensures Row(r)[11] == r.loanPurposePersonal && Row(r)[12] == r.loanTypeUnsecured
  {
  }

  /** A placeholder name is found among the placeholder columns of the record. */
  lemma PlaceholderColumn(name: string)
    requires name in Placeholders
    ensures IndexOf(Columns, name).Some? && 13 <= IndexOf(Columns, name).value
  {
    var q :| 0 <= q < |Placeholders| && Placeholders[q] == name;
    assert Columns[13 + q] == Placeholders[q];
    ColumnsDistinct();
    IndexOfDistinct(Columns, 13 + q);
  }

  /** Selects the named columns of a row, in the order asked for. A name the
      row does not have is an error, never a default value. */
  function Reindex(columns: seq<string>, row: seq<real>, features: seq<string>): (r: Result<seq<real>>)
    requires |row| == |columns|
    ensures r.Ok? <==> forall f :: f in features ==> f in columns
    ensures r.Err? ==> r.error.MissingFeature? && r.error.name in features && r.error.name !in columns
    ensures r.Ok? ==> |r.value| == |features|
    ensures r.Ok? ==> forall i :: 0 <= i < |features| ==>
      IndexOf(columns, features[i]).Some? && r.value[i] == row[IndexOf(columns, features[i]).value]
  {
    if features == [] then Ok([])
    else match IndexOf(columns, features[0])
      case None => Err(MissingFeature(features[0]))
      case Some(j) =>
        match Reindex(columns, row, features[1..])
        case Err(e) => Err(e)
        case Ok(rest) =>
          assert forall i :: 1 <= i < |features| ==> features[i] == features[1..][i - 1];
          Ok([row[j]] + rest)
  }
}
