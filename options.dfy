/** The nullable values of the application (`String?`, `List<ForecastDay>?`, `Location?`). */
module Options {
  datatype Option<T> = None | Some(value: T)
}
