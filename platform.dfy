/**
 * Platform identification: the DMI vendor and product names under which the
 * driver agrees to load, and whether the product has a second (graphics) fan.
 */
module Platform {
  import opened Options

  const ASUS_VENDOR: string := "ASUSTeK COMPUTER INC."

  /** `ENODEV`; `fan_init` returns its negation when the platform is not supported. */
  const ENODEV: int := 19

  /** Supported products without a dedicated graphics card (one fan). */
  const SINGLE_FAN_PRODUCTS: set<string> :=
    {"UX31E", "UX21", "UX301LA", "UX21A", "UX31A", "UX32A", "UX42VS", "UX302LA", "N551JK", "N56JN"}

  /** Supported products with a dedicated graphics card (a second fan). */
  const GFX_FAN_PRODUCTS: set<string> := {"UX32VD", "UX52VS", "UX500VZ", "NX500"}

  /**
   * The product-name lookup of `fan_init`: `Some(has_gfx_fan)` for a listed
   * product, `None` for one the driver does not know.
   */
  function HasGfxFan(product: string): (r: Option<bool>)
    ensures r == Some(false) <==> product in SINGLE_FAN_PRODUCTS
    ensures r == Some(true) <==> product in GFX_FAN_PRODUCTS
    ensures r == None <==> product !in SINGLE_FAN_PRODUCTS + GFX_FAN_PRODUCTS
  {
    if product == "UX31E" || product == "UX21" ||
       product == "UX301LA" || product == "UX21A" ||
       product == "UX31A" || product == "UX32A" ||
       product == "UX42VS" || product == "UX302LA" ||
       product == "N551JK" || product == "N56JN" then
      Some(false)
    else if product == "UX32VD" || product == "UX52VS" ||
            product == "UX500VZ" || product == "NX500" then
      Some(true)
    else
      None
  }

  /** The two lists are disjoint and hold ten and four names. */
  lemma ProductLists()
    ensures SINGLE_FAN_PRODUCTS !! GFX_FAN_PRODUCTS
    ensures |SINGLE_FAN_PRODUCTS| == 10 && |GFX_FAN_PRODUCTS| == 4
  {
  }
}
