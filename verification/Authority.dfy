/** Identities shared by the submission protocol and the client built on it. */
module Authority {
  const U64_MAX: nat := 0xFFFF_FFFF_FFFF_FFFF

  datatype Option<+T> = None | Some(value: T)

  datatype Result<+T, +E> = Ok(value: T) | Err(error: E)

  /** One installed protocol contract: the version it speaks, the monotonic
      generation it was installed at, and an opaque credential identity. */
  datatype ProtocolAuthority = ProtocolAuthority(version: nat, generation: nat, identity: nat)
}
