/** The records the dashboard fetches and the points it plots. */
module Logs {

  datatype Option<+T> = None | Some(value: T)

  /** One executed request, as the log endpoint reports it. */
  datatype Log = Log(
    date: string,
    requestName: string,
    executionTime: int,
    statusCode: int,
    description: string)

  /** One plotted point: the formatted date, the duration and the status. */
  datatype ChartData = ChartData(date: string, executionTime: int, statusCode: int)

  /** The point plotted for `log`. Date formatting depends on the browser's
      locale and time zone, so it is a parameter of the model. */
  function ToPoint(log: Log, formatDate: string -> string): (p: ChartData)
    ensures p.date == formatDate(log.date)
    ensures p.executionTime == log.executionTime && p.statusCode == log.statusCode
  {
    ChartData(formatDate(log.date), log.executionTime, log.statusCode)
  }

  /** The built-in sample data shown when the fetch fails. */
  const MockData: seq<Log> := [
    Log("2024-03-01T10:00:00", "GetBalance", 150, 200, "Успешное получение баланса"),
    Log("2024-03-01T10:05:00", "GetBalance", 180, 200, "Успешное получение баланса"),
    Log("2024-03-01T10:10:00", "GetBalance", 120, 500, "Ошибка сервера"),
    Log("2024-03-01T10:15:00", "TransferMoney", 250, 200, "Успешный перевод"),
    Log("2024-03-01T10:20:00", "TransferMoney", 300, 400, "Недостаточно средств"),
    Log("2024-03-01T10:25:00", "GetTransactions", 200, 200, "Успешное получение транзакций"),
    Log("2024-03-01T10:30:00", "GetTransactions", 220, 200, "Успешное получение транзакций"),
    Log("2024-03-01T10:35:00", "GetTransactions", 190, 200, "Успешное получение транзакций")
  ]
}
