/**
 The domain records of the intra-day power position report: the trade data
 delivered by the power service, the aggregated trade, the report record handed
 to the CSV exporter, and the success/failure result every stage returns.
 */
module Entities {

  /** A calendar date and wall-clock time; only passed through and formatted. */
  datatype DateTime = DateTime(year: int, month: int, day: int, hour: int, minute: int, second: int)

  /** One (period index, volume) pair of a trade, as the power service delivers it. */
  datatype PowerPeriod = PowerPeriod(period: int, volume: real)

  /** A trade of the power service: its date and its period/volume pairs. */
  datatype PowerTrade = PowerTrade(date: DateTime, periods: seq<PowerPeriod>)

  /** The summed volume of every trade period that carries one period index. */
  datatype AggregatedPowerPeriod = AggregatedPowerPeriod(period: int, aggregatedVolume: real)

  /** The aggregated trade data of one report request. */
  datatype AggregatedPowerTrade = AggregatedPowerTrade(timeStamp: DateTime, aggregations: seq<AggregatedPowerPeriod>)

  /**
   The report record passed from preparation to export: where and under which
   name to store it, its column headers, and a rows x columns grid of cells.
   */
  datatype ReportFile = ReportFile(filePath: string, fileName: string, headers: seq<string>, tabularData: array2<string>)

  /** Header of the time column. */
  const LocalTimeHeader: string := "Local Time"

  /** Header of the volume column. */
  const VolumeHeader: string := "Volume"

  /** The outcome of a stage: a value, or the list of error messages that made it fail. */
  datatype Result<T> = Ok(value: T) | Fail(errors: seq<string>)

  /** Optional value. */
  datatype Option<T> = None | Some(value: T)
}
