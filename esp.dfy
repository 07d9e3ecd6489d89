/** Error codes and small wrappers shared by every component of the node.
    `EspErr` mirrors the `esp_err_t` values the firmware returns; `Ptr` stands for
    an out-parameter pointer that may be NULL. */
module Esp {

  /** The `esp_err_t` codes the modelled code produces or passes through. */
  datatype EspErr =
    | Ok               // ESP_OK
    | Fail             // ESP_FAIL
    | InvalidArg       // ESP_ERR_INVALID_ARG
    | InvalidState     // ESP_ERR_INVALID_STATE
    | Timeout          // ESP_ERR_TIMEOUT
    | NvsNotFound      // ESP_ERR_NVS_NOT_FOUND
    | Other(code: int) // any other code reported by the SDK

  datatype Option<+T> = None | Some(value: T)

  /** A caller-supplied out-parameter: NULL, or a pointer to a value. */
  datatype Ptr<+T> = Null | Ref(target: T)

  /** Unsigned 32-bit truncation, as a C cast to `uint32_t` does. */
  const U32Modulus: int := 0x1_0000_0000

  function ToU32(x: nat): (r: nat)
    ensures r < U32Modulus
    ensures x < U32Modulus ==> r == x
  {
    x % U32Modulus
  }
}
