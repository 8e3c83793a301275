/** The role byte carried by every frame (`Kind` in src/endpoint.rs). */
module Endpoint {
  import opened Bytes

  /** A party of the protocol; nnat's discriminants are 0, 1, 2 and 3. */
  datatype Kind = Unknown | Frontend | Backend | Stun

  /** `k as u8`: the enum discriminant. */
  function KindToByte(k: Kind): (b: Byte)
    ensures b <= 3
  {
    match k
    case Unknown => 0
    case Frontend => 1
    case Backend => 2
    case Stun => 3
  }

  /** `Kind::from(u8)`: total; every byte outside 1..3 becomes `Unknown`. */
  function KindFrom(b: Byte): (k: Kind)
    ensures KindToByte(k) == b <==> b <= 3
    ensures b > 3 ==> KindToByte(k) == 0
    ensures k == Unknown <==> b == 0 || b > 3
  {
    match b
    case 1 => Frontend
    case 2 => Backend
    case 3 => Stun
    case _ => Unknown
  }

  /** `Kind::from(k as u8) == k`: the discriminant identifies the kind. */
  lemma KindRoundTrip(k: Kind)
    ensures KindFrom(KindToByte(k)) == k
  {
  }

  /** `Kind::to_string`: the variant's name. */
  function KindName(k: Kind): string
  {
    match k
    case Backend => "Backend"
    case Frontend => "Frontend"
    case Stun => "Stun"
    case Unknown => "Unknown"
  }

  /** Distinct kinds have distinct names, so a name identifies its kind. */
  lemma KindNameInjective(k1: Kind, k2: Kind)
    ensures KindName(k1) == KindName(k2) <==> k1 == k2
  {
  }
}
