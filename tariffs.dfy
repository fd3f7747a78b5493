/** Tariffs as the customer layer sees them: an identity and a power type. */
module Tariffs {

  /**
   * A power-type classification (consumption, production, ...). The
   * enumeration itself is not part of this model, so a power type is its name.
   */
  datatype PowerType = PowerType(name: string)

  /**
   * A published tariff. The registry keys on the object itself, so two
   * tariffs with equal attributes are still different keys.
   */
  class Tariff {
    const id: int
    const powerType: PowerType

    constructor (id: int, powerType: PowerType)
      ensures this.id == id && this.powerType == powerType
    {
      this.id := id;
      this.powerType := powerType;
    }
  }
}
