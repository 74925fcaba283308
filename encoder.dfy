/**
 * The feature encoder: turns one EmployeeInput into the single-row frame the
 * scaler receives, aligned column by column with the classifier's feature
 * names. The encoder builds a dictionary (zero-filled over the schema, then
 * overwritten field by field) and projects it back onto the schema.
 */
module FeatureEncoder {
  import opened Optional
  import opened EmployeeForm

  /** A one-row table: its column names and the row's values, in order. */
  datatype Frame = Frame(columns: seq<string>, row: seq<int>)

  /** The four one-hot families; each names its columns `<Field>_<value>`. */
  datatype Family = JobRoleFamily | EducationFieldFamily | BusinessTravelFamily | MaritalStatusFamily

  function FamilyPrefix(fam: Family): string
  {
    match fam
    case JobRoleFamily => "JobRole_"
    case EducationFieldFamily => "EducationField_"
    case BusinessTravelFamily => "BusinessTravel_"
    case MaritalStatusFamily => "MaritalStatus_"
  }

  predicate InFamily(name: string, fam: Family)
  {
    FamilyPrefix(fam) <= name
  }

  /** The names the encoder always writes: six copied fields and two binary flags. */
  const FixedKeys: set<string> := {
    "Age", "MonthlyIncome", "JobSatisfaction", "EnvironmentSatisfaction",
    "YearsAtCompany", "WorkLifeBalance", "Gender", "OverTime" }

  /**
   * The column of a family that the input selects, or None when the input
   * is that family's baseline (no column of its own).
   */
  function Selected(x: EmployeeInput, fam: Family): (c: Option<string>)
    ensures c.Some? ==> InFamily(c.value, fam)
    ensures c.None? <==>
              || (fam == BusinessTravelFamily && x.businessTravel == NonTravel)
              || (fam == MaritalStatusFamily && x.maritalStatus == Divorced)
  {
    match fam
    case JobRoleFamily =>
      var c := "JobRole_" + JobRoleLabel(x.jobRole);
      assert c[..|FamilyPrefix(fam)|] == FamilyPrefix(fam);
      Some(c)
    case EducationFieldFamily =>
      var c := "EducationField_" + EducationFieldLabel(x.educationField);
      assert c[..|FamilyPrefix(fam)|] == FamilyPrefix(fam);
      Some(c)
    case BusinessTravelFamily =>
      (match x.businessTravel
       case NonTravel => None
       case TravelRarely => Some("BusinessTravel_Travel_Rarely")
       case TravelFrequently => Some("BusinessTravel_Travel_Frequently"))
    case MaritalStatusFamily =>
      (match x.maritalStatus
       case Divorced => None
       case Married => Some("MaritalStatus_Married")
       case Single => Some("MaritalStatus_Single"))
  }

  /** Every one-hot column the input selects, over all four families. */
  function SelectedColumns(x: EmployeeInput): set<string>
  {
    AsSet(Selected(x, JobRoleFamily)) + AsSet(Selected(x, EducationFieldFamily))
    + AsSet(Selected(x, BusinessTravelFamily)) + AsSet(Selected(x, MaritalStatusFamily))
  }

  /**
   * Reference definition, column by column: the value the encoded frame
   * holds in the column called `name`.
   */
  function ColumnValue(x: EmployeeInput, name: string): (v: int)
    ensures name in SelectedColumns(x) ==> v == 1
    ensures name !in FixedKeys && name !in SelectedColumns(x) ==> v == 0
  {
    SelectedNotFixed(x);
    if name == "Age" then x.age
    else if name == "MonthlyIncome" then x.monthlyIncome
    else if name == "JobSatisfaction" then x.jobSatisfaction
    else if name == "EnvironmentSatisfaction" then x.environmentSatisfaction
    else if name == "YearsAtCompany" then x.yearsAtCompany
    else if name == "WorkLifeBalance" then x.workLifeBalance
    else if name == "Gender" then (if x.gender == Male then 0 else 1)
    else if name == "OverTime" then (if x.overTime == Yes then 1 else 0)
    else if name in SelectedColumns(x) then 1
    else 0
  }

  /** The encoded frame: one column per schema name, in schema order. */
  function Encode(schema: seq<string>, x: EmployeeInput): (f: Frame)
    ensures f.columns == schema && |f.row| == |schema|
  {
    Frame(schema, seq(|schema|, i requires 0 <= i < |schema| => ColumnValue(x, schema[i])))
  }

  /** The keys the dictionary holds after encoding besides the schema's own. */
  function WrittenKeys(x: EmployeeInput): set<string>
  {
    FixedKeys + AsSet(Selected(x, BusinessTravelFamily)) + AsSet(Selected(x, MaritalStatusFamily))
  }

  predicate Distinct(schema: seq<string>)
  {
    forall i, j :: 0 <= i < j < |schema| ==> schema[i] != schema[j]
  }

  // ---------------------------------------------------------------------
  // Names: families do not overlap and hold none of the fixed keys.
  // ---------------------------------------------------------------------

  /** Two names that differ at a position within the prefix cannot share it. */
  lemma NotPrefixAt(p: string, s: string, k: nat)
    requires k < |p| && k < |s| && p[k] != s[k]
    ensures !(p <= s)
  {
  }

  lemma FixedKeyInNoFamily(name: string, fam: Family)
    requires name in FixedKeys
    ensures !InFamily(name, fam)
  {
    var p := FamilyPrefix(fam);
    if name == "JobSatisfaction" && fam == JobRoleFamily {
      NotPrefixAt(p, name, 3);
    } else if name == "EnvironmentSatisfaction" && fam == EducationFieldFamily {
      NotPrefixAt(p, name, 1);
    } else if name == "MonthlyIncome" && fam == MaritalStatusFamily {
      NotPrefixAt(p, name, 1);
    } else if |name| < |p| {
    } else {
      NotPrefixAt(p, name, 0);
    }
  }

  lemma FamiliesDisjoint(name: string, fam1: Family, fam2: Family)
    requires InFamily(name, fam1) && InFamily(name, fam2)
    ensures fam1 == fam2
  {
    var p1, p2 := FamilyPrefix(fam1), FamilyPrefix(fam2);
    assert p1[0] == name[0] == p2[0] by {
      assert p1 == name[..|p1|];
      assert p2 == name[..|p2|];
    }
  }

  /**
   * The one-hot characterisation: a column of family `fam` holds 1 exactly
   * when it is the column the input selects for that family, and 0 otherwise.
   */
  lemma {:induction false} FamilyColumnValue(x: EmployeeInput, fam: Family, name: string)
    requires InFamily(name, fam)
    ensures ColumnValue(x, name) == if Selected(x, fam) == Some(name) then 1 else 0
  {
    if name in FixedKeys {
      FixedKeyInNoFamily(name, fam);
    }
    if Selected(x, fam) == Some(name) {
      assert name in SelectedColumns(x);
    } else {
      forall other: Family
        ensures name !in AsSet(Selected(x, other))
      {
        if Selected(x, other) == Some(name) {
          FamiliesDisjoint(name, fam, other);
        }
      }
      assert name !in SelectedColumns(x);
    }
  }

  /** The selected one-hot columns never coincide with an always-written key. */
  lemma SelectedNotFixed(x: EmployeeInput)
    ensures SelectedColumns(x) !! FixedKeys
  {
    forall fam: Family, k | k in AsSet(Selected(x, fam)) && k in FixedKeys
      ensures false
    {
      FixedKeyInNoFamily(k, fam);
    }
  }

  /** `d` is `base` with every key of `flags` set to 1 (added when absent). */
  ghost predicate FlagsOver(d: map<string, int>, base: map<string, int>, flags: set<string>)
  {
    && (forall k :: k in d <==> k in base || k in flags)
    && (forall k :: k in d ==> d[k] == if k in flags then 1 else base[k])
  }

  lemma FlagsOverStep(d: map<string, int>, base: map<string, int>, flags: set<string>, k: string)
    requires FlagsOver(d, base, flags)
    ensures FlagsOver(d[k := 1], base, flags + {k})
  {
  }

  /**
   * Once the one-hot flags are laid over the zero-filled dictionary with its
   * fixed keys, every key holds its reference value.
   */
  lemma FlagsMatchColumns(schema: seq<string>, x: EmployeeInput, fixed: map<string, int>,
                          written: set<string>, d: map<string, int>)
    requires forall k :: k in fixed <==> k in schema || k in FixedKeys
    requires forall k :: k in fixed && k in FixedKeys ==> fixed[k] == ColumnValue(x, k)
    requires forall k :: k in fixed && k !in FixedKeys ==> fixed[k] == 0
    requires written == (AsSet(Selected(x, JobRoleFamily)) + AsSet(Selected(x, EducationFieldFamily))) * fixed.Keys
                        + AsSet(Selected(x, BusinessTravelFamily)) + AsSet(Selected(x, MaritalStatusFamily))
    requires FlagsOver(d, fixed, written)
    ensures forall k :: k in d <==> k in schema || k in WrittenKeys(x)
    ensures forall k :: k in d ==> d[k] == ColumnValue(x, k)
  {
  }


  // ---------------------------------------------------------------------
  // The imperative encoder.
  // ---------------------------------------------------------------------

  /**
   * Steps 1-3 of the encoder: a dictionary with every schema name set to 0,
   * then the six numeric fields copied and the two binary fields mapped to
   * 0/1. Each of the eight keys is written whether or not the schema has it.
   */
  method CopyFields(schema: seq<string>, x: EmployeeInput) returns (d: map<string, int>)
    ensures forall k :: k in d <==> k in schema || k in FixedKeys
    ensures forall k :: k in d && k in FixedKeys ==> d[k] == ColumnValue(x, k)
    ensures forall k :: k in d && k !in FixedKeys ==> d[k] == 0
  {
    d := map name | name in schema :: 0;
    d := d["Age" := x.age];
    d := d["MonthlyIncome" := x.monthlyIncome];
    d := d["JobSatisfaction" := x.jobSatisfaction];
    d := d["EnvironmentSatisfaction" := x.environmentSatisfaction];
    d := d["YearsAtCompany" := x.yearsAtCompany];
    d := d["WorkLifeBalance" := x.workLifeBalance];
    d := d["Gender" := if GenderLabel(x.gender) == "Male" then 0 else 1];
    d := d["OverTime" := if OverTimeLabel(x.overTime) == "Yes" then 1 else 0];
  }

  /**
   * Step 4: set the one-hot flags. The JobRole and EducationField columns
   * are set only when their name is already a key; the BusinessTravel and
   * MaritalStatus columns are written unconditionally, and their baselines
   * write nothing.
   */
  method SetOneHotFlags(d0: map<string, int>, x: EmployeeInput) returns (d: map<string, int>)
    ensures FlagsOver(d, d0, (AsSet(Selected(x, JobRoleFamily)) + AsSet(Selected(x, EducationFieldFamily))) * d0.Keys
                             + AsSet(Selected(x, BusinessTravelFamily)) + AsSet(Selected(x, MaritalStatusFamily)))
  {
    ghost var job, edu := AsSet(Selected(x, JobRoleFamily)), AsSet(Selected(x, EducationFieldFamily));
    ghost var travel, marital := AsSet(Selected(x, BusinessTravelFamily)), AsSet(Selected(x, MaritalStatusFamily));
    ghost var written: set<string> := {};
    d := d0;
    assert FlagsOver(d, d0, written);

    var jobRoleFeature := "JobRole_" + JobRoleLabel(x.jobRole);
    assert job == {jobRoleFeature};
    if jobRoleFeature in d {
      FlagsOverStep(d, d0, written, jobRoleFeature);
      d := d[jobRoleFeature := 1];
      written := written + {jobRoleFeature};
    }
    assert written == job * d0.Keys;

    var eduFieldFeature := "EducationField_" + EducationFieldLabel(x.educationField);
    assert edu == {eduFieldFeature};
    ghost var before := written;
    if eduFieldFeature in d {
      assert eduFieldFeature in d0 by {
        if eduFieldFeature !in d0 {
          FamiliesDisjoint(eduFieldFeature, JobRoleFamily, EducationFieldFamily);
        }
      }
      FlagsOverStep(d, d0, written, eduFieldFeature);
      d := d[eduFieldFeature := 1];
      written := written + {eduFieldFeature};
    }
    assert written == before + edu * d0.Keys;

    before := written;
    if BusinessTravelLabel(x.businessTravel) == "Travel_Rarely" {
      FlagsOverStep(d, d0, written, "BusinessTravel_Travel_Rarely");
      d := d["BusinessTravel_Travel_Rarely" := 1];
      written := written + {"BusinessTravel_Travel_Rarely"};
    } else if BusinessTravelLabel(x.businessTravel) == "Travel_Frequently" {
      FlagsOverStep(d, d0, written, "BusinessTravel_Travel_Frequently");
      d := d["BusinessTravel_Travel_Frequently" := 1];
      written := written + {"BusinessTravel_Travel_Frequently"};
    }
    assert written == before + travel;

    before := written;
    if MaritalStatusLabel(x.maritalStatus) == "Married" {
      FlagsOverStep(d, d0, written, "MaritalStatus_Married");
      d := d["MaritalStatus_Married" := 1];
      written := written + {"MaritalStatus_Married"};
    } else if MaritalStatusLabel(x.maritalStatus) == "Single" {
      FlagsOverStep(d, d0, written, "MaritalStatus_Single");
      d := d["MaritalStatus_Single" := 1];
      written := written + {"MaritalStatus_Single"};
    }
    assert written == before + marital;
  }

  /**
   * Steps 1-4 together: the dictionary the encoder builds. Its keys are the
   * schema's names plus the always-written ones, and every key holds its
   * reference value.
   */
  method BuildInputDict(schema: seq<string>, x: EmployeeInput) returns (d: map<string, int>)
    ensures forall k :: k in d <==> k in schema || k in WrittenKeys(x)
    ensures forall k :: k in d ==> d[k] == ColumnValue(x, k)
  {
    var fixed := CopyFields(schema, x);
    d := SetOneHotFlags(fixed, x);
    FlagsMatchColumns(schema, x, fixed, (AsSet(Selected(x, JobRoleFamily)) + AsSet(Selected(x, EducationFieldFamily))) * fixed.Keys
                                        + AsSet(Selected(x, BusinessTravelFamily)) + AsSet(Selected(x, MaritalStatusFamily)), d);
  }

  /**
   * Step 5: project the dictionary onto the schema, one column per schema
   * name in schema order. Keys outside the schema do not reach the frame.
   */
  method ToFrame(d: map<string, int>, schema: seq<string>) returns (f: Frame)
    requires forall name :: name in schema ==> name in d
    ensures f.columns == schema && |f.row| == |schema|
    ensures forall i :: 0 <= i < |schema| ==> f.row[i] == d[schema[i]]
  {
    var row: seq<int> := [];
    var i := 0;
    while i < |schema|
      invariant 0 <= i <= |schema|
      invariant |row| == i
      invariant forall j :: 0 <= j < i ==> row[j] == d[schema[j]]
    {
      row := row + [d[schema[i]]];
      i := i + 1;
    }
    f := Frame(schema, row);
  }

  /** The whole encoder, proved equal to the column-wise reference definition. */
  method EncodeInputs(schema: seq<string>, x: EmployeeInput) returns (f: Frame)
    ensures f == Encode(schema, x)
  {
    var d := BuildInputDict(schema, x);
    f := ToFrame(d, schema);
  }

  // ---------------------------------------------------------------------
  // Properties of the encoded frame.
  // ---------------------------------------------------------------------

  /** A column's value depends only on its name: moving a name moves its value. */
  lemma EncodeFollowsNames(schema1: seq<string>, schema2: seq<string>, x: EmployeeInput)
    ensures forall i, j :: 0 <= i < |schema1| && 0 <= j < |schema2| && schema1[i] == schema2[j] ==>
              Encode(schema1, x).row[i] == Encode(schema2, x).row[j]
  {
  }

  /** Zero-fill: a column is non-zero only if the encoder writes it. */
  lemma EncodeZeroFill(schema: seq<string>, x: EmployeeInput)
    ensures forall i :: 0 <= i < |schema| && Encode(schema, x).row[i] != 0 ==>
              schema[i] in FixedKeys || schema[i] in SelectedColumns(x)
  {
  }

  /** The six numeric and ordinal fields are copied verbatim into their columns. */
  lemma EncodeCopiesNumericFields(schema: seq<string>, x: EmployeeInput)
    ensures forall i :: 0 <= i < |schema| ==>
              var v := Encode(schema, x).row[i];
              && (schema[i] == "Age" ==> v == x.age)
              && (schema[i] == "MonthlyIncome" ==> v == x.monthlyIncome)
              && (schema[i] == "JobSatisfaction" ==> v == x.jobSatisfaction)
              && (schema[i] == "EnvironmentSatisfaction" ==> v == x.environmentSatisfaction)
              && (schema[i] == "YearsAtCompany" ==> v == x.yearsAtCompany)
              && (schema[i] == "WorkLifeBalance" ==> v == x.workLifeBalance)
  {
  }

  /** Gender is 0 exactly for Male and 1 otherwise; OverTime is 1 exactly for Yes and 0 otherwise. */
  lemma EncodeBinaryFields(schema: seq<string>, x: EmployeeInput)
    ensures forall i :: 0 <= i < |schema| && schema[i] == "Gender" ==>
              var v := Encode(schema, x).row[i];
              (v == 0 <==> x.gender == Male) && (v == 1 <==> x.gender != Male)
    ensures forall i :: 0 <= i < |schema| && schema[i] == "OverTime" ==>
              var v := Encode(schema, x).row[i];
              (v == 1 <==> x.overTime == Yes) && (v == 0 <==> x.overTime != Yes)
  {
  }

  /**
   * Distinct job roles select distinct `JobRole_` columns, and distinct
   * education fields distinct `EducationField_` columns.
   */
  lemma SelectedDistinguishesOptions(x1: EmployeeInput, x2: EmployeeInput)
    ensures Selected(x1, JobRoleFamily) == Selected(x2, JobRoleFamily) <==> x1.jobRole == x2.jobRole
    ensures Selected(x1, EducationFieldFamily) == Selected(x2, EducationFieldFamily)
            <==> x1.educationField == x2.educationField
  {
    LabelsDistinct(x1.jobRole, x2.jobRole, x1.educationField, x2.educationField);
    var p, q := "JobRole_", "EducationField_";
    var a1, a2 := JobRoleLabel(x1.jobRole), JobRoleLabel(x2.jobRole);
    var b1, b2 := EducationFieldLabel(x1.educationField), EducationFieldLabel(x2.educationField);
    assert (p + a1)[|p|..] == a1 && (p + a2)[|p|..] == a2;
    assert (q + b1)[|q|..] == b1 && (q + b2)[|q|..] == b2;
  }

  /** Every column of a one-hot family is a 0/1 flag that is 1 exactly at the selected column. */
  lemma EncodeFamilyColumns(schema: seq<string>, x: EmployeeInput, fam: Family)
    ensures forall i :: 0 <= i < |schema| && InFamily(schema[i], fam) ==>
              Encode(schema, x).row[i] == if Selected(x, fam) == Some(schema[i]) then 1 else 0
  {
    forall i | 0 <= i < |schema| && InFamily(schema[i], fam)
      ensures Encode(schema, x).row[i] == if Selected(x, fam) == Some(schema[i]) then 1 else 0
    {
      FamilyColumnValue(x, fam, schema[i]);
    }
  }

  /**
   * A family has a column set to 1 exactly when the input selects a column
   * for it and the schema has that column; a missing column or a baseline
   * leaves the whole family at 0 without any error.
   */
  lemma EncodeFlagPresent(schema: seq<string>, x: EmployeeInput, fam: Family)
    ensures (exists i :: 0 <= i < |schema| && InFamily(schema[i], fam) && Encode(schema, x).row[i] == 1)
        <==> Selected(x, fam).Some? && Selected(x, fam).value in schema
  {
    EncodeFamilyColumns(schema, x, fam);
    if Selected(x, fam).Some? && Selected(x, fam).value in schema {
      var i :| 0 <= i < |schema| && schema[i] == Selected(x, fam).value;
      assert InFamily(schema[i], fam) && Encode(schema, x).row[i] == 1;
    }
  }

  /**
   * All columns of a family that are 1 carry the same name; with distinct
   * feature names, at most one column of each family is 1.
   */
  lemma EncodeAtMostOneFlag(schema: seq<string>, x: EmployeeInput, fam: Family)
    ensures forall i, j :: 0 <= i < |schema| && 0 <= j < |schema|
              && InFamily(schema[i], fam) && InFamily(schema[j], fam)
              && Encode(schema, x).row[i] == 1 && Encode(schema, x).row[j] == 1
              ==> schema[i] == schema[j]
    ensures Distinct(schema) ==>
              forall i, j :: 0 <= i < |schema| && 0 <= j < |schema|
                && InFamily(schema[i], fam) && InFamily(schema[j], fam)
                && Encode(schema, x).row[i] == 1 && Encode(schema, x).row[j] == 1
                ==> i == j
  {
    EncodeFamilyColumns(schema, x, fam);
  }

  /**
   * Non-Travel is the baseline and sets no BusinessTravel column;
   * Travel_Rarely and Travel_Frequently each set only their own column.
   */
  lemma EncodeBusinessTravel(schema: seq<string>, x: EmployeeInput)
    ensures forall i :: 0 <= i < |schema| && InFamily(schema[i], BusinessTravelFamily) ==>
              var v := Encode(schema, x).row[i];
              && (x.businessTravel == NonTravel ==> v == 0)
              && (x.businessTravel == TravelRarely ==> (v == 1 <==> schema[i] == "BusinessTravel_Travel_Rarely"))
              && (v == 0 || v == 1)
              && (x.businessTravel == TravelFrequently ==> (v == 1 <==> schema[i] == "BusinessTravel_Travel_Frequently"))
  {
    EncodeFamilyColumns(schema, x, BusinessTravelFamily);
  }

  /**
   * Divorced is the baseline and sets no MaritalStatus column; Married and
   * Single each set only their own column.
   */
  lemma EncodeMaritalStatus(schema: seq<string>, x: EmployeeInput)
    ensures forall i :: 0 <= i < |schema| && InFamily(schema[i], MaritalStatusFamily) ==>
              var v := Encode(schema, x).row[i];
              && (x.maritalStatus == Divorced ==> v == 0)
              && (x.maritalStatus == Married ==> (v == 1 <==> schema[i] == "MaritalStatus_Married"))
              && (x.maritalStatus == Single ==> (v == 1 <==> schema[i] == "MaritalStatus_Single"))
              && (v == 0 || v == 1)
  {
    EncodeFamilyColumns(schema, x, MaritalStatusFamily);
  }

  /**
   * `JobRole_<role>` and `EducationField_<field>` are 1 exactly at the
   * column naming the chosen option, and every other column of the family is 0.
   */
  lemma EncodeJobRoleAndEducation(schema: seq<string>, x: EmployeeInput)
    ensures forall i :: 0 <= i < |schema| && InFamily(schema[i], JobRoleFamily) ==>
              var v := Encode(schema, x).row[i];
              (v == 1 <==> schema[i] == "JobRole_" + JobRoleLabel(x.jobRole)) && (v == 0 || v == 1)
    ensures forall i :: 0 <= i < |schema| && InFamily(schema[i], EducationFieldFamily) ==>
              var v := Encode(schema, x).row[i];
              (v == 1 <==> schema[i] == "EducationField_" + EducationFieldLabel(x.educationField)) && (v == 0 || v == 1)
  {
    EncodeFamilyColumns(schema, x, JobRoleFamily);
    EncodeFamilyColumns(schema, x, EducationFieldFamily);
  }

  /** For an input within the form's bounds, every column is non-negative and only MonthlyIncome exceeds 70. */
  lemma EncodeWithinBounds(schema: seq<string>, x: EmployeeInput)
    requires WithinFormBounds(x)
    ensures forall i :: 0 <= i < |schema| ==>
              var v := Encode(schema, x).row[i];
              0 <= v && (schema[i] != "MonthlyIncome" ==> v <= 70)
  {
  }

  /**
   * A worked example: a male, single manager with an "Other" education who
   * does not travel, against a schema without Gender or an "Other" column.
   */
  lemma ExampleEncoding()
    ensures Encode(ExampleSchema, ExampleEmployee).row == [30, 5000, 3, 3, 5, 3, 0, 1, 0, 0, 0, 0, 0, 1]
  {
    var x, schema := ExampleEmployee, ExampleSchema;
    var expected := [30, 5000, 3, 3, 5, 3, 0, 1, 0, 0, 0, 0, 0, 1];
    var row := Encode(schema, x).row;
    ExampleSelections();
    forall i | 0 <= i < |schema|
      ensures row[i] == expected[i]
    {
      if i == 7 || i == 8 {
        FamilyColumnValue(x, JobRoleFamily, schema[i]);
      } else if i == 9 {
        FamilyColumnValue(x, EducationFieldFamily, schema[i]);
      } else if i == 10 || i == 11 {
        FamilyColumnValue(x, BusinessTravelFamily, schema[i]);
      } else if i == 12 || i == 13 {
        FamilyColumnValue(x, MaritalStatusFamily, schema[i]);
      }
    }
  }

  /** The columns the example employee selects. */
  lemma ExampleSelections()
    ensures Selected(ExampleEmployee, JobRoleFamily) == Some("JobRole_Manager")
    ensures Selected(ExampleEmployee, EducationFieldFamily) == Some("EducationField_Other")
    ensures Selected(ExampleEmployee, BusinessTravelFamily) == None
    ensures Selected(ExampleEmployee, MaritalStatusFamily) == Some("MaritalStatus_Single")
  {
    var job := "JobRole_" + "Manager";
    assert forall i | 0 <= i < |job| :: job[i] == "JobRole_Manager"[i];
    assert job == "JobRole_Manager";
    var edu := "EducationField_" + "Other";
    assert forall i | 0 <= i < |edu| :: edu[i] == "EducationField_Other"[i];
    assert edu == "EducationField_Other";
  }

  const ExampleSchema: seq<string> := [
    "Age", "MonthlyIncome", "JobSatisfaction", "EnvironmentSatisfaction",
    "YearsAtCompany", "WorkLifeBalance", "OverTime",
    "JobRole_Manager", "JobRole_Sales Executive", "EducationField_Medical",
    "BusinessTravel_Travel_Frequently", "BusinessTravel_Travel_Rarely",
    "MaritalStatus_Married", "MaritalStatus_Single"]

  const ExampleEmployee := EmployeeInput(30, 5000, 3, 3, 5, 3, Male, No, Manager, Other, NonTravel, Single)
}
