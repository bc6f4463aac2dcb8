/** Small things every module needs. */
module Basics {

  datatype Option<+T> = None | Some(value: T)

  function One(b: bool): nat { if b then 1 else 0 }

  /** The whole seconds that time(nullptr) shows at a moment counted in milliseconds. */
  function Secs(ms: nat): int { ms / 1000 }
}
