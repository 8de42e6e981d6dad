/**
 Currency code to display symbol. The dashboard and the two charts each carry
 their own table, looked up as `table[code] || fallback`, with their own
 fallback; the setup screen offers the list of currencies a user can actually
 choose. Every symbol in the tables is non-empty, so the fallback applies
 exactly to the codes a table does not list.
 */
module Currency {

  /** The currencies offered on the setup screen, with the symbol shown for each. */
  const SetupCurrencies: seq<(string, string)> :=
    [("USD", "$"), ("EUR", "€"), ("GBP", "£"), ("JPY", "¥"),
     ("CAD", "$"), ("AUD", "$"), ("INR", "₹"), ("CNY", "¥")]

  /** The code is one the setup screen offers. */
  predicate Offered(code: string) {
    exists i :: 0 <= i < |SetupCurrencies| && SetupCurrencies[i].0 == code
  }

  /** The offered codes, spelled out. */
  lemma OfferedCodes(code: string)
    ensures Offered(code) <==> code in {"USD", "EUR", "GBP", "JPY", "CAD", "AUD", "INR", "CNY"}
  {
    if code in {"USD", "EUR", "GBP", "JPY", "CAD", "AUD", "INR", "CNY"} {
      assert || code == SetupCurrencies[0].0 || code == SetupCurrencies[1].0
             || code == SetupCurrencies[2].0 || code == SetupCurrencies[3].0
             || code == SetupCurrencies[4].0 || code == SetupCurrencies[5].0
             || code == SetupCurrencies[6].0 || code == SetupCurrencies[7].0;
    }
  }

  /**
   The dashboard's `getCurrencySymbol` as written, used for every amount on
   the page: six codes, "฿" for anything else. Four of the six are setup
   currencies and get the setup screen's symbol; the other setup currencies
   (CAD, AUD, INR, CNY) fall back to "฿".
   */
  function DashboardSymbolAsWritten(code: string): (s: string)
    ensures s != ""
    ensures code == "MMK" ==> s == "K"
    ensures code == "THB" ==> s == "฿"
    ensures code in {"USD", "EUR", "GBP", "JPY"} ==> (code, s) in SetupCurrencies[..4]
    ensures code !in {"MMK", "THB", "USD", "EUR", "GBP", "JPY"} ==> s == "฿"
  {
    assert SetupCurrencies[..4] == [("USD", "$"), ("EUR", "€"), ("GBP", "£"), ("JPY", "¥")];
    match code
    case "MMK" => "K"
    case "THB" => "฿"
    case "USD" => "$"
    case "EUR" => "€"
    case "GBP" => "£"
    case "JPY" => "¥"
    case _ => "฿"
  }

  /**
   The charts' `getCurrencySymbol`, identical in the bar and the pie chart:
   eight codes, "$" for anything else. The eight are exactly the setup
   currencies.
   */
  function ChartSymbol(code: string): (s: string)
    ensures s != ""
    ensures Offered(code) ==> (code, s) in SetupCurrencies
    ensures !Offered(code) ==> s == "$"
  {
    OfferedCodes(code);
    match code
    case "USD" => "$"
    case "EUR" => "€"
    case "GBP" => "£"
    case "JPY" => "¥"
    case "CAD" => "$"
    case "AUD" => "$"
    case "INR" => "₹"
    case "CNY" => "¥"
    case _ => "$"
  }

  /** The charts show every setup currency with the symbol the setup screen promised. */
  lemma ChartsAgreeWithSetup()
    ensures forall i :: 0 <= i < |SetupCurrencies| ==> ChartSymbol(SetupCurrencies[i].0) == SetupCurrencies[i].1
  {
  }

  /**
   The dashboard as written shows the promised symbol for the first four
   setup currencies only; for CAD, AUD, INR and CNY it shows "฿".
   */
  lemma DashboardAgreesWithSetupOnFour()
    ensures forall i :: 0 <= i < |SetupCurrencies| ==>
      (DashboardSymbolAsWritten(SetupCurrencies[i].0) == SetupCurrencies[i].1 <==> i < 4)
    ensures forall i :: 4 <= i < |SetupCurrencies| ==> DashboardSymbolAsWritten(SetupCurrencies[i].0) == "฿"
  {
  }

  /**
   The dashboard as written shows a Canadian-dollar user the baht sign: CAD
   is offered at setup with "$" but is missing from the dashboard's table.
   */
  lemma DashboardMissesSetupCurrency()
    ensures ("CAD", "$") in SetupCurrencies
    ensures DashboardSymbolAsWritten("CAD") == "฿"
  {
    assert SetupCurrencies[4] == ("CAD", "$");
  }

  /**
   The dashboard's symbol lookup with the missing setup currencies added: it
   agrees with the setup screen on every offered currency, with the table as
   written on every code that table knows, and still falls back to "฿".
   */
  function DashboardSymbol(code: string): (s: string)
    ensures forall i :: 0 <= i < |SetupCurrencies| && SetupCurrencies[i].0 == code ==> s == SetupCurrencies[i].1
    ensures code in {"MMK", "THB", "USD", "EUR", "GBP", "JPY"} ==> s == DashboardSymbolAsWritten(code)
    ensures !Offered(code) && code != "MMK" && code != "THB" ==> s == "฿"
  {
    OfferedCodes(code);
    match code
    case "CAD" => "$"
    case "AUD" => "$"
    case "INR" => "₹"
    case "CNY" => "¥"
    case _ => DashboardSymbolAsWritten(code)
  }

  /**
   For codes neither table knows, the page and the charts disagree on the
   fallback, and the corrected lookup keeps the page's.
   */
  lemma FallbacksDiffer(code: string)
    requires !Offered(code) && code != "MMK" && code != "THB"
    ensures DashboardSymbolAsWritten(code) == "฿" && ChartSymbol(code) == "$"
    ensures DashboardSymbol(code) == DashboardSymbolAsWritten(code)
  {
    OfferedCodes(code);
  }
}
