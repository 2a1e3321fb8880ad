/**
 The noise source of one logic buffer.

 `random.gauss(mu, sigma)` returns `mu + z * sigma`, where `z` is the next
 value of a standard-normal sequence fixed by the generator's seed. The
 distribution of `z` and the generator behind it are not modelled: the
 sequence is given by the caller as `normals`, and `drawn` counts how many
 of its values have been consumed so far.
 */
module Noise {

  datatype NoiseStream = NoiseStream(normals: nat -> real, drawn: nat)

  /**
   One call `gauss(mu=0.0, sigma)`: the sample and the stream after the call.
   The draw happens whatever `sigma` is, also when it is zero.
   */
  function Gauss(s: NoiseStream, sigma: real): (r: (real, NoiseStream))
    ensures r.1.normals == s.normals
    ensures r.1.drawn == s.drawn + 1
    ensures r.0 == s.normals(s.drawn) * sigma
  {
    (0.0 + s.normals(s.drawn) * sigma, NoiseStream(s.normals, s.drawn + 1))
  }

  /**
   A zero sigma yields exactly zero noise, yet still consumes one value of
   the stream, so later noisy calls see the next value.
   */
  lemma ZeroSigmaStillDraws(s: NoiseStream)
    ensures Gauss(s, 0.0).0 == 0.0
    ensures Gauss(s, 0.0).1.drawn == s.drawn + 1
    ensures Gauss(Gauss(s, 0.0).1, 1.0).0 == s.normals(s.drawn + 1)
  {
  }
}
