/** Printer and print-type selection in `getPosProfile`. */
module PosProfile {
  import opened Wrappers

  /** A row of the profile's `printer_settings` child table. */
  datatype PrinterSetting = PrinterSetting(printer: Option<string>, bill: int)

  datatype PrintType = Qz | Network | Socket

  /** The `printer`, `print_type` and `qz_host` entries of the reply. */
  datatype PrintSelection = PrintSelection(printer: Option<string>, printType: PrintType, qzHost: Option<string>)

  /** Some row of `settings` is a bill printer. */
  predicate HasBillPrinter(settings: seq<PrinterSetting>)
  {
    exists k :: 0 <= k < |settings| && settings[k].bill == 1
  }

  /** `k` is the first bill-printer row of `settings`. */
  predicate FirstBillRow(settings: seq<PrinterSetting>, k: int)
  {
    && 0 <= k < |settings|
    && settings[k].bill == 1
    && forall m :: 0 <= m < k ==> settings[m].bill != 1
  }

  /** The selection in `getPosProfile`: scan `printer_settings` for the first
      row with `bill == 1`, then choose "qz" when `qz_print == 1`, "network"
      when a bill printer was found, "socket" otherwise. */
  method SelectPrinter(settings: seq<PrinterSetting>, qzPrint: int, profileQzHost: Option<string>)
    returns (selection: PrintSelection)
    ensures HasBillPrinter(settings) ==>
      exists k :: FirstBillRow(settings, k) && selection.printer == settings[k].printer
    ensures !HasBillPrinter(settings) ==> selection.printer == None
    ensures selection.printType ==
      if qzPrint == 1 then Qz else if HasBillPrinter(settings) then Network else Socket
    ensures selection.qzHost == if qzPrint == 1 then profileQzHost else None
  {
    var printer: Option<string> := None;
    var billPresent := false;
    var qzHost: Option<string> := None;
    var i := 0;
    while i < |settings|
      invariant 0 <= i <= |settings|
      invariant !billPresent && printer == None
      invariant forall m :: 0 <= m < i ==> settings[m].bill != 1
    {
      if settings[i].bill == 1 {
        printer := settings[i].printer;
        billPresent := true;
        assert FirstBillRow(settings, i);
        break;
      }
      i := i + 1;
    }
    var printType: PrintType;
    if qzPrint == 1 {
      printType := Qz;
      qzHost := profileQzHost;
    } else if billPresent {
      printType := Network;
    } else {
      printType := Socket;
    }
    selection := PrintSelection(printer, printType, qzHost);
  }

  /** `qz_host` is reported only for QZ printing, and a network printer is
      chosen only when some row is a bill printer. */
  lemma SelectionConsistent(settings: seq<PrinterSetting>, selection: PrintSelection, qzPrint: int, profileQzHost: Option<string>)
    requires selection.printType ==
      if qzPrint == 1 then Qz else if HasBillPrinter(settings) then Network else Socket
    requires selection.qzHost == if qzPrint == 1 then profileQzHost else None
    ensures selection.qzHost.Some? ==> selection.printType == Qz
    ensures selection.printType == Network ==> qzPrint != 1 && HasBillPrinter(settings)
    ensures selection.printType == Socket <==> qzPrint != 1 && !HasBillPrinter(settings)
  {
  }
}
