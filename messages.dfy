/**
 * The messages the client exchanges with the hardware daemon, as far as the
 * client uses them. The full catalogue lives in the daemon crate's `messages`
 * module; the client only builds the six requests below, reads the brightness
 * value out of `GetBrightnessSuccess`, and treats every other response as an
 * opaque acknowledgement.
 */
module Messages {

  /** Rust's `u8` */
  newtype uint8 = x: int | 0 <= x < 0x100

  /** The requests the blocking client can issue */
  datatype Request =
    | SetBrightness(level: uint8)
    | GetBrightness
    | EnableScreen(screen: uint8)
    | DisableScreen(screen: uint8)
    | Reboot
    | PowerOff

  /** The daemon's replies: the brightness value, or any other variant, identified by its discriminant */
  datatype Response =
    | GetBrightnessSuccess(level: uint8)
    | Acknowledgement(discriminant: nat)

  /** Outbound envelope: the request id followed by the request */
  datatype ToDaemon = ToDaemon(id: nat, request: Request)

  /** Inbound envelope: the id of the request being answered followed by the response */
  datatype FromDaemon = FromDaemon(id: nat, response: Response)
}
