/** Fixed-rate conversion to Indian rupees, src/currency_utils.py. Amounts are
    exact reals; 0 is what the function returns for a pair it does not support. */
module CurrencyUtils {

  /** INR per unit of each supported source currency. */
  const Rates: map<string, real> :=
    map["USD" := 82.0, "GBP" := 103.0, "EUR" := 89.0, "AUD" := 54.0, "CAD" := 60.0]

  /** `convert_currency(amount, source_currency, target_currency)`. */
  function ConvertCurrency(amount: real, source: string, target: string): (r: real)
    ensures r != 0.0 ==> source in Rates && target == "INR" && amount != 0.0
    ensures amount >= 0.0 ==> r >= 0.0
  {
    if source !in Rates || target != "INR" then 0.0
    else amount * Rates[source]
  }

  /** The five supported pairs multiply by their table rate. */
  lemma SupportedPairs(amount: real)
    ensures ConvertCurrency(amount, "USD", "INR") == amount * 82.0
    ensures ConvertCurrency(amount, "GBP", "INR") == amount * 103.0
    ensures ConvertCurrency(amount, "EUR", "INR") == amount * 89.0
    ensures ConvertCurrency(amount, "AUD", "INR") == amount * 54.0
    ensures ConvertCurrency(amount, "CAD", "INR") == amount * 60.0
  {
  }

  /** A source outside the table, INR itself included, and any target other
      than INR give 0. */
  lemma Unsupported(amount: real, source: string, target: string)
    requires source !in {"USD", "GBP", "EUR", "AUD", "CAD"} || target != "INR"
    ensures ConvertCurrency(amount, source, target) == 0.0
    ensures ConvertCurrency(amount, "INR", "INR") == 0.0
  {
  }

  /** On a supported pair the conversion is linear. */
  lemma Linear(a: real, b: real, k: real, source: string)
    requires source in Rates
    ensures ConvertCurrency(k * a + b, source, "INR")
         == k * ConvertCurrency(a, source, "INR") + ConvertCurrency(b, source, "INR")
  {
    calc {
      ConvertCurrency(k * a + b, source, "INR");
      (k * a + b) * Rates[source];
      k * (a * Rates[source]) + b * Rates[source];
    }
  }

  /** 0 does not tell an unsupported pair from a zero amount. */
  lemma ZeroAmbiguous(source: string)
    requires source in Rates
    ensures ConvertCurrency(0.0, source, "INR") == ConvertCurrency(1.0, "INR", "INR")
  {
  }

  /** Every rate is positive, so a non-zero amount on a supported pair
      never gives 0. */
  lemma SupportedNonZero(amount: real, source: string)
    requires source in Rates && amount != 0.0
    ensures ConvertCurrency(amount, source, "INR") != 0.0
  {
  }
}

/** The mock helpers of src/utils.py: a three-currency conversion and a web
    search that finds nothing. */
module Utils {
  import opened PyJson
  import CurrencyUtils

  /** `convert_currency` of src/utils.py: only USD, GBP and AUD to INR. */
  function ConvertCurrency(amount: real, source: string, target: string): (r: real)
    ensures r != 0.0 ==> source in {"USD", "GBP", "AUD"} && target == "INR"
    ensures amount >= 0.0 ==> r >= 0.0
  {
    if source == "USD" && target == "INR" then amount * 82.0
    else if source == "GBP" && target == "INR" then amount * 103.0
    else if source == "AUD" && target == "INR" then amount * 54.0
    else 0.0
  }

  /** On the three pairs it supports the mock agrees with the rate table;
      EUR and CAD, which the table supports, give 0 here. */
  lemma AgreesWithTable(amount: real, source: string)
    ensures source in {"USD", "GBP", "AUD"} ==>
      ConvertCurrency(amount, source, "INR") == CurrencyUtils.ConvertCurrency(amount, source, "INR")
    ensures ConvertCurrency(amount, "EUR", "INR") == 0.0 && ConvertCurrency(amount, "CAD", "INR") == 0.0
    ensures amount != 0.0 && source in {"EUR", "CAD"} ==>
      ConvertCurrency(amount, source, "INR") != CurrencyUtils.ConvertCurrency(amount, source, "INR")
  {
  }

  /** `search_web`: the mock returns no result for any query. */
  function SearchWeb(query: string): (r: seq<Json>)
    ensures |r| == 0
  {
    []
  }

  /** What reading a JSON file gives: the parsed document, or a failure to
      open or parse it. */
  datatype FileRead = Unreadable | Parsed(doc: Json)

  /** `load_sample_data`: the parsed document, or `{}` when reading fails. */
  function LoadSampleData(f: FileRead): (r: Json)
    ensures f.Parsed? ==> r == f.doc
    ensures f.Unreadable? ==> !Truthy(r) && r.JObj?
  {
    match f
    case Parsed(doc) => doc
    case Unreadable => JObj([])
  }
}
