/** Token feature vectors and the fusion of discarded tokens. A token is a
    vector of Channels reals (the embedding width C; nothing proved here depends
    on its value). Reals are exact, so sums here are the mathematical sums that
    the floating-point code approximates. */
module Tokens {

  /** The embedding width of the base configuration. */
  const Channels: nat := 768

  type Vec = v: seq<real> | |v| == Channels witness seq(Channels, _ => 0.0)

  function Zero(): Vec {
    seq(Channels, _ => 0.0)
  }

  function Add(u: Vec, v: Vec): Vec {
    seq(Channels, c requires 0 <= c < Channels => u[c] + v[c])
  }

  /** A weight times a channel value. Kept as a named function so that the
      solver treats the product as a term rather than as nonlinear arithmetic. */
  function Mul(a: real, b: real): real {
    a * b
  }

  function Scale(a: real, v: Vec): Vec {
    seq(Channels, c requires 0 <= c < Channels => Mul(a, v[c]))
  }

  function Sum(ws: seq<real>): real {
    if ws == [] then 0.0 else Sum(ws[..|ws| - 1]) + ws[|ws| - 1]
  }

  /** torch.sum(tokens * weights.unsqueeze(-1), dim=1): the weighted sum of the
      tokens, each scaled by its own weight, with no division by the total
      weight. */
  function Fuse(toks: seq<Vec>, ws: seq<real>): Vec
    requires |toks| == |ws|
  {
    if toks == [] then Zero()
    else Add(Fuse(toks[..|toks| - 1], ws[..|ws| - 1]), Scale(ws[|ws| - 1], toks[|toks| - 1]))
  }

  /** The products weight times channel c of each token, in order. */
  function ChannelTerms(toks: seq<Vec>, ws: seq<real>, c: nat): (r: seq<real>)
    requires |toks| == |ws| && c < Channels
  {
    if toks == [] then []
    else ChannelTerms(toks[..|toks| - 1], ws[..|ws| - 1], c) + [Mul(ws[|ws| - 1], toks[|toks| - 1][c])]
  }

  /** Channel by channel, the fused token is the sum over the discarded tokens of
      weight times that channel. */
  lemma {:induction false} FuseChannel(toks: seq<Vec>, ws: seq<real>, c: nat)
    requires |toks| == |ws| && c < Channels
    ensures Fuse(toks, ws)[c] == Sum(ChannelTerms(toks, ws, c))
  {
    if toks != [] {
      var n := |toks| - 1;
      FuseChannel(toks[..n], ws[..n], c);
      FuseStep(toks, ws, c);
      SumSnoc(ChannelTerms(toks[..n], ws[..n], c), Mul(ws[n], toks[n][c]));
    }
  }

  /** Channel c of the fused token gains weight times channel c of the last token. */
  lemma FuseStep(toks: seq<Vec>, ws: seq<real>, c: nat)
    requires |toks| == |ws| && c < Channels && toks != []
    ensures Fuse(toks, ws)[c] == Fuse(toks[..|toks| - 1], ws[..|ws| - 1])[c] + Mul(ws[|ws| - 1], toks[|toks| - 1][c])
  {
  }

  lemma SumSnoc(s: seq<real>, v: real)
    ensures Sum(s + [v]) == Sum(s) + v
  {
    assert (s + [v])[..|s|] == s;
  }

  /** If every discarded token is the same vector v, the fused token is v scaled
      by the total discarded score: the weights add up as they are, they are not
      normalised to one. */
  lemma {:induction false} FuseOfEqualTokens(toks: seq<Vec>, ws: seq<real>, v: Vec)
    requires |toks| == |ws|
    requires forall i :: 0 <= i < |toks| ==> toks[i] == v
    ensures Fuse(toks, ws) == Scale(Sum(ws), v)
  {
    if toks != [] {
      var n := |toks| - 1;
      FuseOfEqualTokens(toks[..n], ws[..n], v);
      var lhs := Add(Scale(Sum(ws[..n]), v), Scale(ws[n], v));
      forall c | 0 <= c < Channels ensures lhs[c] == Scale(Sum(ws), v)[c] {
        calc {
          lhs[c];
          Mul(Sum(ws[..n]), v[c]) + Mul(ws[n], v[c]);
          (Sum(ws[..n]) + ws[n]) * v[c];
          Mul(Sum(ws), v[c]);
        }
      }
    }
  }

  /** Every weight multiplied by a. */
  function ScaleAll(a: real, ws: seq<real>): (r: seq<real>)
    ensures |r| == |ws|
  {
    if ws == [] then [] else ScaleAll(a, ws[..|ws| - 1]) + [Mul(a, ws[|ws| - 1])]
  }

  lemma ScaleAllSnoc(a: real, ws: seq<real>)
    requires ws != []
    ensures ScaleAll(a, ws)[..|ws| - 1] == ScaleAll(a, ws[..|ws| - 1])
    ensures ScaleAll(a, ws)[|ws| - 1] == Mul(a, ws[|ws| - 1])
  {
  }

  lemma MulDistributes(a: real, f: real, w: real, t: real)
    ensures Mul(a, f) + Mul(Mul(a, w), t) == Mul(a, f + Mul(w, t))
  {
  }

  /** Scaling every weight by a scales each channel of the fused token by a. A
      renormalised (weighted-mean) fusion would be unchanged by this. */
  lemma {:induction false} FuseScalesWithWeights(toks: seq<Vec>, ws: seq<real>, a: real, c: nat)
    requires |toks| == |ws| && c < Channels
    ensures Fuse(toks, ScaleAll(a, ws))[c] == Mul(a, Fuse(toks, ws)[c])
  {
    if toks != [] {
      var n := |toks| - 1;
      var aws := ScaleAll(a, ws);
      FuseScalesWithWeights(toks[..n], ws[..n], a, c);
      ScaleAllSnoc(a, ws);
      FuseStep(toks, aws, c);
      FuseStep(toks, ws, c);
      MulDistributes(a, Fuse(toks[..n], ws[..n])[c], ws[n], toks[n][c]);
    }
  }
}
