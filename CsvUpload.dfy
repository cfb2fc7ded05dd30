/** The `uploadCsvData` mutation (`convex/csvUpload.ts`): every customer is deleted, then each
    uploaded row is normalised into a customer record through the column-alias chains and
    inserted, a row whose insert the store rejects being counted as an error. */
module CsvUpload {
  import opened Wrappers
  import opened Seqs
  import opened JsValues
  import opened Schema

  // ---------------------------------------------------------------- the coercion helpers

  /** `toBoolean`: booleans as they are, the number 1, and the strings "yes", "true" and "1"
      in any ASCII case and with surrounding white space. */
  function ToBoolean(v: JsValue): bool
  {
    match v
    case Bool(b) => b
    case Num(n) => n == 1.0
    case Str(s) => IsTrueWord(BooleanWord(s))
    case _ => false
  }

  /** The values `toNumber` and `toString` replace by their default before converting. */
  predicate Missing(v: JsValue)
  {
    v == Null || v == Undefined || v == Str("")
  }

  /** `toNumber(value, defaultValue)`: the default for a missing value or one `parseFloat`
      cannot read, the parsed number otherwise. */
  function ToNumber(v: JsValue, default: real): real
  {
    if Missing(v) then default
    else
      match ParseFloat(v)
      case Some(n) => n
      case None => default
  }

  /** `toString(value, defaultValue)`: the default for a missing value, `String(value)` otherwise. */
  function ToStringValue(v: JsValue, default: string): string
  {
    if Missing(v) then default else ToJsString(v)
  }

  /** A value `toBoolean` accepts is truthy, so a falsy value can never make a flag true. */
  lemma ToBooleanTruthy(v: JsValue)
    ensures ToBoolean(v) ==> Truthy(v)
  {
    if v.Str? && v.s == "" {
      assert LowerCase(v.s) == "";
    }
  }

  /** The word `toBoolean` compares, after lower-casing and trimming. */
  function BooleanWord(s: string): string
  {
    Trim(LowerCase(s))
  }

  /** The word is "yes", "true" or "1", compared character by character. */
  predicate IsTrueWord(w: string)
  {
    || (|w| == 3 && w[0] == 'y' && w[1] == 'e' && w[2] == 's')
    || (|w| == 4 && w[0] == 't' && w[1] == 'r' && w[2] == 'u' && w[3] == 'e')
    || (|w| == 1 && w[0] == '1')
  }

  /** That word ignores ASCII case and white space around it. */
  lemma BooleanWordIgnoresCaseAndPadding(s: string, c: char)
    requires IsWhitespace(c)
    ensures BooleanWord(LowerCase(s)) == BooleanWord(s)
    ensures BooleanWord([c] + s + [c]) == BooleanWord(s)
  {
    LowerCaseIdempotent(s);
    var w := LowerCase(s);
    LowerCasePadding(s, c);
    LowerCasePadding([c] + s, c);
    assert LowerCase([c] + s + [c]) == [c] + w + [c];
    TrimPadding([c] + w, c);
    TrimPadding(w, c);
  }

  /** `toBoolean` of a string depends on its word only. */
  lemma ToBooleanOfSameWord(s: string, t: string)
    requires BooleanWord(s) == BooleanWord(t)
    ensures ToBoolean(Str(s)) == ToBoolean(Str(t))
  {
  }

  /** So `toBoolean` on a string ignores ASCII case and white space around it too. */
  lemma ToBooleanIgnoresCaseAndPadding(s: string, c: char)
    requires IsWhitespace(c)
    ensures ToBoolean(Str(LowerCase(s))) == ToBoolean(Str(s))
    ensures ToBoolean(Str([c] + s + [c])) == ToBoolean(Str(s))
  {
    BooleanWordIgnoresCaseAndPadding(s, c);
    ToBooleanOfSameWord(LowerCase(s), s);
    ToBooleanOfSameWord([c] + s + [c], s);
  }

  /** `parseFloat` reads a numeral back as its number. */
  lemma ParseFloatOfNumeral(k: nat)
    ensures ParseFloat(Str(NatToString(k))) == Some(k as real)
  {
    var s := NatToString(k);
    TrimOfDigits(s);
    ScanOfDigits(s);
    DigitsValueOfNatToString(k);
  }

  /** So `toNumber` keeps a number the CSV parser left as text; a number is kept as it is. */
  lemma ToNumberRoundTrip(k: nat, n: real, default: real)
    ensures ToNumber(Str(NatToString(k)), default) == k as real
    ensures ToNumber(Num(n), default) == n
  {
    assert ToNumber(Num(n), default) == n;
    assert ToNumber(Str(NatToString(k)), default) == k as real by {
      ParseFloatOfNumeral(k);
      ToNumberOfReadable(NatToString(k), k as real, default);
    }
  }

  /** A non-empty string that `parseFloat` reads as `x` is converted to `x`. */
  lemma ToNumberOfReadable(s: string, x: real, default: real)
    requires s != "" && ParseFloat(Str(s)) == Some(x)
    ensures ToNumber(Str(s), default) == x
  {
  }

  /** `toString` never yields the empty string when its default is not empty, and gives back any
      non-empty string unchanged. */
  lemma ToStringValueNonEmpty(v: JsValue, default: string)
    requires default != ""
    ensures ToStringValue(v, default) != ""
    ensures v.Str? && v.s != "" ==> ToStringValue(v, default) == v.s
  {
  }

  /** A whole number that the upload component made out of a numeral cell comes back from
      `toString` as that numeral, zero included: the numeric conversion loses no text. */
  lemma ToStringValueOfNumeral(k: nat, default: string)
    ensures ToStringValue(Num(k as real), default) == NatToString(k)
  {
    NumberToStringOfNat(k);
  }

  // ---------------------------------------------------------------- alias chains

  /** `toBoolean(row[k0]) || toBoolean(row[k1]) || …` over the alias keys of one flag. */
  function AnyTrue(row: Row, aliases: seq<string>): bool
  {
    if aliases == [] then false else ToBoolean(Get(row, aliases[0])) || AnyTrue(row, aliases[1..])
  }

  /** A flag is true exactly when one of its aliases coerces to true, in whatever column. */
  lemma {:induction false} AnyTrueIff(row: Row, aliases: seq<string>)
    ensures AnyTrue(row, aliases) <==> exists k :: k in aliases && ToBoolean(Get(row, k))
  {
    if aliases != [] {
      AnyTrueIff(row, aliases[1..]);
      assert aliases == [aliases[0]] + aliases[1..];
    }
  }

  /** Unlike the value chains, the boolean aliases have no priority: listing them in another order
      gives the same flag. */
  lemma BooleanAliasesUnordered(row: Row, aliases: seq<string>, reordered: seq<string>)
    requires multiset(aliases) == multiset(reordered)
    ensures AnyTrue(row, aliases) == AnyTrue(row, reordered)
  {
    AnyTrueIff(row, aliases);
    AnyTrueIff(row, reordered);
    forall k ensures k in aliases <==> k in reordered {
      assert k in aliases <==> k in multiset(aliases);
      assert k in reordered <==> k in multiset(reordered);
    }
  }

  // ---------------------------------------------------------------- normalisation

  /** The id given to a row without one: `CUST_<now>_<successCount>`. */
  function SyntheticId(now: nat, successCount: nat): string
  {
    "CUST_" + NatToString(now) + "_" + NatToString(successCount)
  }

  /** Two synthesised ids of one upload are equal only for equal success counts. */
  lemma SyntheticIdInjective(now: nat, m: nat, n: nat)
    requires SyntheticId(now, m) == SyntheticId(now, n)
    ensures m == n
  {
    var prefix := "CUST_" + NatToString(now) + "_";
    assert SyntheticId(now, m) == prefix + NatToString(m);
    assert SyntheticId(now, n) == prefix + NatToString(n);
    assert NatToString(m) == SyntheticId(now, m)[|prefix|..];
    assert NatToString(n) == SyntheticId(now, n)[|prefix|..];
    NatToStringInjective(m, n);
  }

  /** The `customerId` chain: `customerID`, `customerId`, `customer_id`, then the synthesised id.
      A falsy value (an empty string, the number 0) falls through to the next alias. */
  function ResolveCustomerId(row: Row, now: nat, successCount: nat): (r: JsValue)
    ensures Truthy(Get(row, "customerID")) ==> r == Get(row, "customerID")
    ensures !Truthy(Get(row, "customerID")) && Truthy(Get(row, "customerId")) ==> r == Get(row, "customerId")
    ensures (!Truthy(Get(row, "customerID")) && !Truthy(Get(row, "customerId")) && Truthy(Get(row, "customer_id")))
              ==> r == Get(row, "customer_id")
    ensures (!Truthy(Get(row, "customerID")) && !Truthy(Get(row, "customerId")) && !Truthy(Get(row, "customer_id")))
              ==> r == Str(SyntheticId(now, successCount))
  {
    Or(Or(Or(Get(row, "customerID"), Get(row, "customerId")), Get(row, "customer_id")), Str(SyntheticId(now, successCount)))
  }

  /** `parseFloat(age) >= 65`; `NaN` compares false. */
  predicate AgeAtLeast65(age: JsValue)
  {
    match ParseFloat(age)
    case Some(n) => n >= 65.0
    case None => false
  }

  /** `gender || (age ? (parseFloat(age) >= 65 ? "Senior" : "Adult") : "Unknown")`. */
  function ResolveGender(row: Row): JsValue
  {
    var age := Get(row, "age");
    Or(Get(row, "gender"), Str(if Truthy(age) then (if AgeAtLeast65(age) then "Senior" else "Adult") else "Unknown"))
  }

  /** A service column: its two spellings, then "Yes"/"No" from the `has_…` flag. */
  function ServiceField(row: Row, upper: string, lower: string, flag: string): string
  {
    ToStringValue(Or(Or(Get(row, upper), Get(row, lower)), Str(if ToBoolean(Get(row, flag)) then "Yes" else "No")), "No")
  }

  /** `toNumber(a) || toNumber(b) || 0` for the tenure: the first non-zero reading. */
  function NumberOr(a: real, b: real): real
  {
    if a != 0.0 then a else b
  }

  /** The normalised record of one row, or `None` when the store's validator rejects it: the
      `customerId` and `gender` chains can yield a number (a numeric cell of the CSV parser) or
      another non-string, and the schema requires strings there. */
  function Normalize(row: Row, now: nat, successCount: nat): Option<Customer>
  {
    var id := ResolveCustomerId(row, now, successCount);
    var gender := ResolveGender(row);
    if !id.Str? || !gender.Str? then None
    else
      var age := Get(row, "age");
      Some(Customer(
        customerId := id.s,
        gender := gender.s,
        seniorCitizen := AnyTrue(row, ["SeniorCitizen", "seniorCitizen"]) || (Truthy(age) && AgeAtLeast65(age)),
        partner := AnyTrue(row, ["Partner", "partner"]),
        dependents := AnyTrue(row, ["Dependents", "dependents"]),
        tenure := NumberOr(ToNumber(Get(row, "tenure"), 0.0), ToNumber(Get(row, "tenure_months"), 0.0)),
        phoneService := AnyTrue(row, ["PhoneService", "phoneService", "has_phone"]),
        multipleLines := ServiceField(row, "MultipleLines", "multipleLines", "has_multiple_lines"),
        internetService := ServiceField(row, "InternetService", "internetService", "has_internet"),
        onlineSecurity := ServiceField(row, "OnlineSecurity", "onlineSecurity", "has_online_security"),
        onlineBackup := ServiceField(row, "OnlineBackup", "onlineBackup", "has_online_backup"),
        deviceProtection := ServiceField(row, "DeviceProtection", "deviceProtection", "has_device_protection"),
        techSupport := ServiceField(row, "TechSupport", "techSupport", "has_tech_support"),
        streamingTV := ServiceField(row, "StreamingTV", "streamingTV", "has_streaming_tv"),
        streamingMovies := ServiceField(row, "StreamingMovies", "streamingMovies", "has_streaming_movies"),
        contract := ToStringValue(Or(Or(Get(row, "Contract"), Get(row, "contract")), Get(row, "contract_type")), "Month-to-month"),
        paperlessBilling := AnyTrue(row, ["PaperlessBilling", "paperlessBilling"]),
        paymentMethod := ToStringValue(Or(Or(Get(row, "PaymentMethod"), Get(row, "paymentMethod")), Get(row, "payment_method")), "Electronic check"),
        monthlyCharges := ToNumber(Or(Or(Get(row, "MonthlyCharges"), Get(row, "monthlyCharges")), Get(row, "monthly_charges")), 0.0),
        totalCharges := ToNumber(Or(Or(Get(row, "TotalCharges"), Get(row, "totalCharges")), Get(row, "total_charges")), 0.0),
        churn := AnyTrue(row, ["Churn", "churn", "churned"]),
        churnProbability := None,
        riskLevel := None,
        lastUpdated := now as real))
  }

  /** Every column name `Normalize` reads; any other column of a row is ignored. */
  const Recognised: set<string> := {
    "customerID", "customerId", "customer_id", "gender", "age", "SeniorCitizen", "seniorCitizen",
    "Partner", "partner", "Dependents", "dependents", "tenure", "tenure_months",
    "PhoneService", "phoneService", "has_phone", "MultipleLines", "multipleLines", "has_multiple_lines",
    "InternetService", "internetService", "has_internet", "OnlineSecurity", "onlineSecurity", "has_online_security",
    "OnlineBackup", "onlineBackup", "has_online_backup", "DeviceProtection", "deviceProtection", "has_device_protection",
    "TechSupport", "techSupport", "has_tech_support", "StreamingTV", "streamingTV", "has_streaming_tv",
    "StreamingMovies", "streamingMovies", "has_streaming_movies", "Contract", "contract", "contract_type",
    "PaperlessBilling", "paperlessBilling", "PaymentMethod", "paymentMethod", "payment_method",
    "MonthlyCharges", "monthlyCharges", "monthly_charges", "TotalCharges", "totalCharges", "total_charges",
    "Churn", "churn", "churned"}

  /** A row none of whose columns is recognised (a CSV whose headers are all unknown, or no column
      at all) gets every default: the synthesised id, gender "Unknown", all flags false, zero tenure
      and charges, "No" for every service, a month-to-month contract and electronic-check payment. */
  lemma DefaultsOfUnrecognisedRow(row: Row, now: nat, successCount: nat)
    requires forall k :: k in row ==> k !in Recognised
    ensures Normalize(row, now, successCount) == Some(Customer(
      SyntheticId(now, successCount), "Unknown", false, false, false, 0.0, false,
      "No", "No", "No", "No", "No", "No", "No", "No",
      "Month-to-month", false, "Electronic check", 0.0, 0.0, false, None, None, now as real))
  {
    UnrecognisedIdentity(row);
    UnrecognisedFlags(row);
    UnrecognisedServices(row);
    UnrecognisedValues(row);
  }

  /** The id and gender columns of such a row are all absent. */
  lemma UnrecognisedIdentity(row: Row)
    requires forall k :: k in row ==> k !in Recognised
    ensures "customerID" !in row && "customerId" !in row && "customer_id" !in row
    ensures "gender" !in row && "age" !in row
  {
  }

  /** The boolean alias columns of such a row are all absent, so its flags are false. */
  lemma UnrecognisedFlags(row: Row)
    requires forall k :: k in row ==> k !in Recognised
    ensures !AnyTrue(row, ["SeniorCitizen", "seniorCitizen"]) && !AnyTrue(row, ["Partner", "partner"])
    ensures !AnyTrue(row, ["Dependents", "dependents"]) && !AnyTrue(row, ["PhoneService", "phoneService", "has_phone"])
    ensures !AnyTrue(row, ["PaperlessBilling", "paperlessBilling"]) && !AnyTrue(row, ["Churn", "churn", "churned"])
  {
    UnsetFlags(row, ["SeniorCitizen", "seniorCitizen"]);
    UnsetFlags(row, ["Partner", "partner"]);
    UnsetFlags(row, ["Dependents", "dependents"]);
    UnsetFlags(row, ["PhoneService", "phoneService", "has_phone"]);
    UnsetFlags(row, ["PaperlessBilling", "paperlessBilling"]);
    UnsetFlags(row, ["Churn", "churn", "churned"]);
  }

  /** Every service field of such a row is "No". */
  lemma UnrecognisedServices(row: Row)
    requires forall k :: k in row ==> k !in Recognised
    ensures ServiceField(row, "MultipleLines", "multipleLines", "has_multiple_lines") == "No"
    ensures ServiceField(row, "InternetService", "internetService", "has_internet") == "No"
    ensures ServiceField(row, "OnlineSecurity", "onlineSecurity", "has_online_security") == "No"
    ensures ServiceField(row, "OnlineBackup", "onlineBackup", "has_online_backup") == "No"
    ensures ServiceField(row, "DeviceProtection", "deviceProtection", "has_device_protection") == "No"
    ensures ServiceField(row, "TechSupport", "techSupport", "has_tech_support") == "No"
    ensures ServiceField(row, "StreamingTV", "streamingTV", "has_streaming_tv") == "No"
    ensures ServiceField(row, "StreamingMovies", "streamingMovies", "has_streaming_movies") == "No"
  {
    UnsetService(row, "MultipleLines", "multipleLines", "has_multiple_lines");
    UnsetService(row, "InternetService", "internetService", "has_internet");
    UnsetService(row, "OnlineSecurity", "onlineSecurity", "has_online_security");
    UnsetService(row, "OnlineBackup", "onlineBackup", "has_online_backup");
    UnsetService(row, "DeviceProtection", "deviceProtection", "has_device_protection");
    UnsetService(row, "TechSupport", "techSupport", "has_tech_support");
    UnsetService(row, "StreamingTV", "streamingTV", "has_streaming_tv");
    UnsetService(row, "StreamingMovies", "streamingMovies", "has_streaming_movies");
  }

  /** The tenure, contract, payment and charge columns of such a row are all absent. */
  lemma UnrecognisedValues(row: Row)
    requires forall k :: k in row ==> k !in Recognised
    ensures "tenure" !in row && "tenure_months" !in row
    ensures "Contract" !in row && "contract" !in row && "contract_type" !in row
    ensures "PaymentMethod" !in row && "paymentMethod" !in row && "payment_method" !in row
    ensures "MonthlyCharges" !in row && "monthlyCharges" !in row && "monthly_charges" !in row
    ensures "TotalCharges" !in row && "totalCharges" !in row && "total_charges" !in row
  {
  }

  /** The empty row is one such row. */
  lemma DefaultsOfEmptyRow(now: nat, successCount: nat)
    ensures Normalize(map[], now, successCount) == Some(Customer(
      SyntheticId(now, successCount), "Unknown", false, false, false, 0.0, false,
      "No", "No", "No", "No", "No", "No", "No", "No",
      "Month-to-month", false, "Electronic check", 0.0, 0.0, false, None, None, now as real))
  {
    DefaultsOfUnrecognisedRow(map[], now, successCount);
  }

  /** No flag is true on a row that has none of its aliases. */
  lemma {:induction false} UnsetFlags(row: Row, aliases: seq<string>)
    requires forall k :: k in aliases ==> k !in row
    ensures !AnyTrue(row, aliases)
  {
    if aliases != [] {
      assert aliases[0] in aliases;
      UnsetFlags(row, aliases[1..]);
    }
  }

  /** A service field is "No" on a row that has none of its three columns. */
  lemma UnsetService(row: Row, upper: string, lower: string, flag: string)
    requires upper !in row && lower !in row && flag !in row
    ensures ServiceField(row, upper, lower, flag) == "No"
  {
    assert Get(row, flag) == Undefined;
  }

  /** A row whose `customerID` is a non-zero number (as the CSV parser makes of a numeric id
      column) is rejected by the store instead of being given a string id. */
  lemma NumericIdRejected(row: Row, now: nat, successCount: nat, n: real)
    requires Get(row, "customerID") == Num(n) && n != 0.0
    ensures Normalize(row, now, successCount) == None
  {
  }

  /** Without any id column, the row's id is the synthesised one and gender comes from the
      `age` column when the `gender` column is falsy. */
  lemma IdAndGenderFallbacks(row: Row, now: nat, successCount: nat)
    requires !Truthy(Get(row, "customerID")) && !Truthy(Get(row, "customerId")) && !Truthy(Get(row, "customer_id"))
    requires !Truthy(Get(row, "gender"))
    ensures Normalize(row, now, successCount).Some?
    ensures Normalize(row, now, successCount).value.customerId == SyntheticId(now, successCount)
    ensures var age := Get(row, "age");
      Normalize(row, now, successCount).value.gender ==
        if !Truthy(age) then "Unknown" else if AgeAtLeast65(age) then "Senior" else "Adult"
  {
  }

  // ---------------------------------------------------------------- the loader

  /** The loader's running state: the records inserted so far and the two counters. */
  datatype LoadState = LoadState(inserted: seq<Customer>, successCount: nat, errorCount: nat)

  /** One iteration of the insert loop, for a normaliser `normalize` of a row and the success
      count so far: a row that normalises is inserted and counted as a success, any other row is
      counted as an error. */
  function Step(st: LoadState, row: Row, normalize: (Row, nat) -> Option<Customer>): LoadState
  {
    match normalize(row, st.successCount)
    case Some(c) => LoadState(st.inserted + [c], st.successCount + 1, st.errorCount)
    case None => LoadState(st.inserted, st.successCount, st.errorCount + 1)
  }

  /** The state after the insert loop has run over `rows`, starting from an emptied table. */
  function LoadWith(rows: seq<Row>, normalize: (Row, nat) -> Option<Customer>): LoadState
  {
    if rows == [] then LoadState([], 0, 0)
    else Step(LoadWith(rows[..|rows| - 1], normalize), rows[|rows| - 1], normalize)
  }

  /** The upload's normaliser, for the time of the call. */
  function Normalizer(now: nat): (Row, nat) -> Option<Customer>
  {
    (row: Row, successCount: nat) => Normalize(row, now, successCount)
  }

  function Load(rows: seq<Row>, now: nat): LoadState
  {
    LoadWith(rows, Normalizer(now))
  }

  lemma LoadStep(rows: seq<Row>, i: nat, normalize: (Row, nat) -> Option<Customer>)
    requires i < |rows|
    ensures LoadWith(rows[..i + 1], normalize) == Step(LoadWith(rows[..i], normalize), rows[i], normalize)
  {
    assert rows[..i + 1][..i] == rows[..i];
  }

  /** Every row is counted exactly once, as a success or as an error, and the table holds one
      record per success. */
  lemma {:induction false} LoadCounts(rows: seq<Row>, normalize: (Row, nat) -> Option<Customer>)
    ensures var st := LoadWith(rows, normalize);
      |st.inserted| == st.successCount && st.successCount + st.errorCount == |rows|
  {
    if rows != [] {
      LoadCounts(rows[..|rows| - 1], normalize);
    }
  }

  /** Every record in the table after the load is the normalisation of one of the uploaded rows:
      nothing from before the call survives. */
  lemma {:induction false} LoadedFromRows(rows: seq<Row>, normalize: (Row, nat) -> Option<Customer>)
    ensures forall c :: c in LoadWith(rows, normalize).inserted ==>
      exists j, k :: 0 <= j < |rows| && normalize(rows[j], k) == Some(c)
  {
    if rows != [] {
      var n := |rows| - 1;
      var front := rows[..n];
      LoadedFromRows(front, normalize);
      var st := LoadWith(front, normalize);
      forall c | c in LoadWith(rows, normalize).inserted
        ensures exists j, k :: 0 <= j < |rows| && normalize(rows[j], k) == Some(c)
      {
        if c in st.inserted {
          var j, k :| 0 <= j < |front| && normalize(front[j], k) == Some(c);
          assert rows[j] == front[j];
        } else {
          assert normalize(rows[n], st.successCount) == Some(c);
        }
      }
    }
  }

  /** A normaliser that names each record after the success count numbers the loaded records by
      their position in the table, whatever rows failed before them. */
  lemma {:induction false} NamedByPosition(rows: seq<Row>, normalize: (Row, nat) -> Option<Customer>, name: nat -> string)
    requires forall row, k :: normalize(row, k).Some? ==> normalize(row, k).value.customerId == name(k)
    ensures var ins := LoadWith(rows, normalize).inserted;
      forall i :: 0 <= i < |ins| ==> ins[i].customerId == name(i)
  {
    if rows != [] {
      var front := rows[..|rows| - 1];
      NamedByPosition(front, normalize, name);
      LoadCounts(front, normalize);
    }
  }

  predicate HasNoId(row: Row)
  {
    !Truthy(Get(row, "customerID")) && !Truthy(Get(row, "customerId")) && !Truthy(Get(row, "customer_id"))
  }

  /** Rows without an id: the upload's normaliser restricted to them. */
  function NormalizerWithoutIds(now: nat): (Row, nat) -> Option<Customer>
  {
    (row: Row, successCount: nat) => if HasNoId(row) then Normalize(row, now, successCount) else None
  }

  lemma NormalizeWithoutId(row: Row, now: nat, successCount: nat)
    requires HasNoId(row)
    ensures Normalize(row, now, successCount).Some? ==>
      Normalize(row, now, successCount).value.customerId == SyntheticId(now, successCount)
  {
  }

  lemma StepWithoutId(st: LoadState, row: Row, now: nat)
    requires HasNoId(row)
    ensures Step(st, row, Normalizer(now)) == Step(st, row, NormalizerWithoutIds(now))
  {
    assert Normalizer(now)(row, st.successCount) == NormalizerWithoutIds(now)(row, st.successCount);
  }

  /** The two normalisers agree on rows without an id, so so do the loads. */
  lemma {:induction false} LoadWithoutIds(rows: seq<Row>, now: nat)
    requires forall j :: 0 <= j < |rows| ==> HasNoId(rows[j])
    ensures Load(rows, now) == LoadWith(rows, NormalizerWithoutIds(now))
  {
    if rows != [] {
      var n := |rows| - 1;
      var front := rows[..n];
      assert forall j :: 0 <= j < |front| ==> HasNoId(front[j]) by {
        forall j | 0 <= j < |front| ensures HasNoId(front[j]) {
          assert front[j] == rows[j];
        }
      }
      LoadWithoutIds(front, now);
      StepWithoutId(LoadWith(front, Normalizer(now)), rows[n], now);
    }
  }

  /** When no row carries an id, the records are numbered by the success count, not by the row
      index: the i-th inserted record is `CUST_<now>_<i>` whatever rows failed before it, so the
      synthesised ids of one upload are pairwise distinct. */
  lemma SynthesizedIds(rows: seq<Row>, now: nat)
    requires forall j :: 0 <= j < |rows| ==> HasNoId(rows[j])
    ensures var ins := Load(rows, now).inserted;
      && (forall i :: 0 <= i < |ins| ==> ins[i].customerId == SyntheticId(now, i))
      && (forall i, j :: 0 <= i < j < |ins| ==> ins[i].customerId != ins[j].customerId)
  {
    LoadWithoutIds(rows, now);
    var normalize := NormalizerWithoutIds(now);
    var name := (k: nat) => SyntheticId(now, k);
    forall row, k | normalize(row, k).Some? ensures normalize(row, k).value.customerId == name(k) {
      NormalizeWithoutId(row, now, k);
    }
    NamedByPosition(rows, normalize, name);
    var ins := Load(rows, now).inserted;
    forall i, j | 0 <= i < j < |ins| ensures ins[i].customerId != ins[j].customerId {
      if ins[i].customerId == ins[j].customerId {
        SyntheticIdInjective(now, i, j);
      }
    }
  }

  /** `uploadCsvData`: the delete loop empties the table, then the insert loop runs over the rows
      with the two counters; the result is the loader's final state and the number of rows. */
  method UploadCsvData(db: Database, rows: seq<Row>, now: nat)
    returns (successCount: nat, errorCount: nat, totalProcessed: nat)
    modifies db`customers
    ensures LoadState(db.customers, successCount, errorCount) == Load(rows, now)
    ensures totalProcessed == |rows|
  {
    ClearCustomers(db);
    successCount, errorCount := 0, 0;
    for i := 0 to |rows|
      invariant LoadState(db.customers, successCount, errorCount) == Load(rows[..i], now)
    {
      LoadStep(rows, i, Normalizer(now));
      match Normalize(rows[i], now, successCount)
      case Some(c) =>
        db.customers := db.customers + [c];
        successCount := successCount + 1;
      case None =>
        errorCount := errorCount + 1;
    }
    assert rows[..|rows|] == rows;
    totalProcessed := |rows|;
  }
}
