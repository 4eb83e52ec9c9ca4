// The optional values every part of the model uses for "null or absent".
module Options {
  datatype Option<+T> = None | Some(value: T) {
    function GetOr(default: T): T {
      if Some? then value else default
    }
  }
}
