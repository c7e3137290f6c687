/** Shared vocabulary of the inspector: an optional value and the options
    record that every `ui` call receives. Only its `custom` part (the
    per-type attributes) matters to the logic modelled here. */
module Inspectable {

  datatype Option<+T> = None | Some(value: T) {
    /** The wrapped value, or `default` when there is none. */
    function GetOr(default: T): T {
      match this
      case Some(v) => v
      case None => default
    }
  }

  /** The options passed to a `ui` call, reduced to the per-type attributes. */
  datatype Options<+T> = Options(custom: T) {
    /** Transforms the per-type attributes and keeps everything else. */
    function Map<U>(f: T -> U): Options<U> {
      Options(f(custom))
    }
  }
}
