// The small option type used for values the statistics screen may show as "-".

module Optional {
  datatype Option<+T> = None | Some(value: T)
}
