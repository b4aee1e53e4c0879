/** The conventional optional value; `None` stands for the C# `null` reference. */
module Optional {

  datatype Option<+T> = None | Some(value: T)

}
