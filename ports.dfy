/** The listen-address rule shared by the configuration loaders and the `main` functions:
    an empty setting falls back to a default, and a leading ':' is added when missing. */
module Ports {

  predicate HasColonPrefix(p: string)
  {
    |p| > 0 && p[0] == ':'
  }

  /** strings.HasPrefix(p, ":") or else ":" + p. */
  function EnsureColon(p: string): (r: string)
    ensures HasColonPrefix(r)
    ensures HasColonPrefix(p) ==> r == p
    ensures !HasColonPrefix(p) ==> r[1..] == p
  {
    if HasColonPrefix(p) then p else ":" + p
  }

  /** The port a configuration ends up with: `dflt` for an empty setting, else the
      setting with a leading ':'. */
  function NormalizedPort(raw: string, dflt: string): string
  {
    if raw == "" then dflt else EnsureColon(raw)
  }

  lemma NormalizedPortHasColon(raw: string, dflt: string)
    requires HasColonPrefix(dflt)
    ensures HasColonPrefix(NormalizedPort(raw, dflt))
  {
  }

  /** Normalising a normalised port changes nothing. */
  lemma NormalizedPortIdempotent(raw: string, dflt: string)
    requires HasColonPrefix(dflt)
    ensures NormalizedPort(NormalizedPort(raw, dflt), dflt) == NormalizedPort(raw, dflt)
  {
  }

  /** Normalisation only ever adds the colon: dropping it gives back a non-empty setting. */
  lemma NormalizedPortKeepsDigits(raw: string, dflt: string)
    requires raw != "" && !HasColonPrefix(raw)
    ensures NormalizedPort(raw, dflt) == ":" + raw
  {
  }
}
