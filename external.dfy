/**
 * Types the model stores but never looks inside: the service sub-structures,
 * PHP's DateTime and PHP floats. Their own fields and behaviour are not modelled.
 */
module External {

  /** Boolean service flags (`srv_bool`). */
  class ServicesBool {
    constructor () {}
  }

  /** Data of the DAW service (`srv_daw`). */
  class ServiceDaw {
    constructor () {}
  }

  /** Data of the IDENT service (`srv_ident`). */
  class ServiceIdent {
    constructor () {}
  }

  /** Data of the PR, PS, EXC and SRS services (`srv_ppe`). */
  class ServicePpe {
    constructor () {}
  }

  /** A PHP `\DateTime` object (the consignment's send date). */
  class DateTime {
    constructor () {}
  }

  /**
   * A PHP float. The only thing the model observes about it is the text that
   * PHP's `(string)` cast produces for it.
   */
  datatype PhpFloat = PhpFloat(castText: string)

  /** PHP's `(string)$f` for a float `f`. */
  function CastToString(f: PhpFloat): string
  {
    f.castText
  }
}
