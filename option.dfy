// A value that may be missing: the model's stand-in for a C# null.
module Optional {

  datatype Option<T> = None | Some(value: T)
}
