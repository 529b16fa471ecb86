/** An optional value: `None` stands for JavaScript's `undefined`/`null` (a field that is absent). */
module Maybe {
  datatype Option<+T> = None | Some(value: T)
}
