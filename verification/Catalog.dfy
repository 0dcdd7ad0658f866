/** The ten report definitions and the attributes the worker, queue and calendar rules use. */
module Catalog {
  datatype ReportKey =
    | SalesGoodsServices
    | PurchaseGoodsPayables
    | GrossProfitByProduct
    | GrossProfitByArCustomer
    | StockBalance
    | StockReorder
    | ArCustomerMovement
    | ArDebtReceipt
    | CashBankReceipts
    | CashBankPayments

  datatype ParameterKind = DateRange | AsOfDate | CurrentOnly

  datatype RefreshClass = Fast | Standard | Heavy

  datatype Preset = Yesterday | TodayToNow | MonthToDate | AsOfRun | Custom

  /** A resolved period; its dates are texts of the form YYYY-MM-DD. */
  datatype Period = Period(preset: Preset, dateFrom: string, dateTo: string)

  function RefreshClassOf(key: ReportKey): RefreshClass {
    match key
    case SalesGoodsServices => Fast
    case ArDebtReceipt => Fast
    case CashBankReceipts => Fast
    case CashBankPayments => Fast
    case StockBalance => Heavy
    case ArCustomerMovement => Heavy
    case _ => Standard
  }

  /** Position in the alphabetical order of the report key texts. */
  function KeyOrder(key: ReportKey): nat {
    match key
    case ArCustomerMovement => 0
    case ArDebtReceipt => 1
    case CashBankPayments => 2
    case CashBankReceipts => 3
    case GrossProfitByArCustomer => 4
    case GrossProfitByProduct => 5
    case PurchaseGoodsPayables => 6
    case SalesGoodsServices => 7
    case StockBalance => 8
    case StockReorder => 9
  }
}
