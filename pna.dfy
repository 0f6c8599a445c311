/** The network analyser (`EnhancedPNA` in Lab/Lab.py): the pair of external
    step attenuators, the source power of a measurement channel expressed
    through them, and the S-parameter capture of a channel.

    Instrument queries and writes become reads and assignments of the fields
    that hold the instrument's state; the reply of a data query is a parameter. */
module Pna {
  import opened Wrappers
  import opened Snp

  /** Transport format of query replies (`ValuesFormat`). */
  datatype ValuesFormat = Ascii | Binary32 | Binary64

  /** The exceptions the modelled operations raise. */
  datatype PnaError =
    | AttenuationOutOfRange            // setAttn outside [0, 30] dB
    | DissimilarAttenuation            // the two attenuators report different values
    | PowerBelowRange                  // setPower below -120 dBm
    | PowerLevelOutOfRange             // the source power validator: outside [-90, 0] dBm
    | CaptureFailed(cause: CaptureError)

  const MinPowerLevel: real := -90.0
  const MaxPowerLevel: real := 0.0
  const MaxAttenuation: real := 30.0
  /** The lowest power the source and the attenuators reach together. */
  const MinReachablePower: real := MinPowerLevel - MaxAttenuation

  /** What the `power_level` validator accepts. */
  predicate ValidPowerLevel(p: real)
  {
    MinPowerLevel <= p <= MaxPowerLevel
  }

  /** What `setAttn` accepts. */
  predicate ValidAttenuation(a: real)
  {
    0.0 <= a <= MaxAttenuation
  }

  /** A source level on the analyser and an attenuation on both attenuators. */
  datatype PowerSetting = PowerSetting(level: real, attenuation: real)

  /** The setting `setPower(p)` leaves behind when it returns normally: the source
      alone down to -90 dBm, below that the source at -90 dBm and the rest taken
      by the attenuators, down to -120 dBm. */
  function PowerSettings(p: real): (r: Result<PowerSetting, PnaError>)
    ensures r.Ok? <==> MinReachablePower <= p <= MaxPowerLevel
    ensures r.Ok? ==> ValidPowerLevel(r.value.level) && ValidAttenuation(r.value.attenuation)
    ensures r.Ok? ==> r.value.level - r.value.attenuation == p
    ensures r.Ok? ==> (r.value.attenuation == 0.0 <==> p >= MinPowerLevel)
    ensures r.Ok? && p >= MinPowerLevel ==> r.value == PowerSetting(p, 0.0)
    ensures r.Ok? && p < MinPowerLevel ==> r.value == PowerSetting(MinPowerLevel, -p - 90.0)
    ensures p < MinReachablePower ==> r == Err(PowerBelowRange)
    ensures p > MaxPowerLevel ==> r == Err(PowerLevelOutOfRange)
  {
    if p >= -90.0 then
      if p <= 0.0 then Ok(PowerSetting(p, 0.0)) else Err(PowerLevelOutOfRange)
    else if p >= -120.0 then Ok(PowerSetting(-90.0, -p - 90.0))
    else Err(PowerBelowRange)
  }

  /** `s[:, n, m] = real_rows[i] + 1j * imag_rows[i]` for `i = n * nports + m`. */
  method FillPair(s: array3<Complex>, re: seq<seq<real>>, im: seq<seq<real>>,
                  npoints: nat, nports: nat, n: nat, m: nat)
    requires HasRows(re, nports * nports, npoints) && HasRows(im, nports * nports, npoints)
    requires s.Length0 == npoints && s.Length1 == nports && s.Length2 == nports
    requires n < nports && m < nports
    modifies s
    ensures forall k :: 0 <= k < npoints ==> s[k, n, m] == Assemble(re, im, npoints, nports)[k][n][m]
    ensures forall k, n', m' :: 0 <= k < npoints && 0 <= n' < nports && 0 <= m' < nports ==>
      (n' != n || m' != m) ==> s[k, n', m'] == old(s[k, n', m'])
  {
    var i := n * nports + m;
    PairIndex(n, m, nports);
    forall k | 0 <= k < npoints {
      s[k, n, m] := Complex(re[i][k], im[i][k]);
    }
    forall k | 0 <= k < npoints ensures s[k, n, m] == Assemble(re, im, npoints, nports)[k][n][m] {
      AssembleAt(re, im, npoints, nports, k, n, m);
    }
  }

  /** The nested loops over `n` and `m` that fill the S-parameter array. */
  method FillNetwork(s: array3<Complex>, re: seq<seq<real>>, im: seq<seq<real>>, npoints: nat, nports: nat)
    requires HasRows(re, nports * nports, npoints) && HasRows(im, nports * nports, npoints)
    requires s.Length0 == npoints && s.Length1 == nports && s.Length2 == nports
    modifies s
    ensures forall k, n, m :: 0 <= k < npoints && 0 <= n < nports && 0 <= m < nports ==>
      s[k, n, m] == Assemble(re, im, npoints, nports)[k][n][m]
  {
    ghost var want := Assemble(re, im, npoints, nports);
    var n := 0;
    while n < nports
      invariant 0 <= n <= nports
      invariant forall k, n', m' :: 0 <= k < npoints && 0 <= n' < n && 0 <= m' < nports ==>
        s[k, n', m'] == want[k][n'][m']
    {
      var m := 0;
      while m < nports
        invariant 0 <= m <= nports
        invariant forall k, n', m' :: 0 <= k < npoints && 0 <= n' < n && 0 <= m' < nports ==>
          s[k, n', m'] == want[k][n'][m']
        invariant forall k, m' :: 0 <= k < npoints && 0 <= m' < m ==> s[k, n, m'] == want[k][n][m']
      {
        FillPair(s, re, im, npoints, nports, n, m);
        m := m + 1;
      }
      n := n + 1;
    }
  }

  class EnhancedPna {
    /** Whether external attenuators are fitted (`ext_attenuators`), fixed at
        construction; `setAttn`, `getAttn`, `setPower` and `getPower` exist only then. */
    const extAttn: bool
    /** Number of test ports of the analyser. */
    const nports: nat
    /** The attenuation each attenuator reports, in dB. */
    var att1: real
    var att2: real
    var queryFormat: ValuesFormat
    /** The trace format of SNP data, `MMEM:STOR:TRAC:FORM:SNP`. */
    var snpFormat: string
    /** The number of the active channel, `SYST:ACT:CHAN`. */
    var activeChannel: int

    /** The state the constructor leaves: binary replies, channel 1 active and,
        with attenuators, both at 0 dB. */
    constructor (extAttenuators: bool, nports: nat, snpFormat: string)
      ensures extAttn == extAttenuators && this.nports == nports && this.snpFormat == snpFormat
      ensures queryFormat == Binary64 && activeChannel == 1
      ensures extAttn ==> att1 == 0.0 && att2 == 0.0
    {
      extAttn := extAttenuators;
      this.nports := nports;
      this.snpFormat := snpFormat;
      queryFormat := Binary64;
      activeChannel := 1;
      att1, att2 := 0.0, 0.0;
    }

    /** The common attenuation of the two units, or an error when they differ. */
    function GetAttn(): (r: Result<real, PnaError>)
      requires extAttn
      reads this
      ensures r.Ok? <==> att1 == att2
      ensures r.Ok? ==> r.value == att1 && r.value == att2
      ensures r.Err? ==> r.error == DissimilarAttenuation
    {
      if att1 != att2 then Err(DissimilarAttenuation) else Ok(att1)
    }

    /** Sets both units to `a`, or raises and leaves both as they were. */
    method SetAttn(a: real) returns (r: Result<(), PnaError>)
      requires extAttn
      modifies this`att1, this`att2
      ensures r.Ok? <==> ValidAttenuation(a)
      ensures r.Ok? ==> att1 == a && att2 == a && GetAttn() == Ok(a)
      ensures r.Err? ==> r.error == AttenuationOutOfRange && att1 == old(att1) && att2 == old(att2)
    {
      if a < 0.0 || a > 30.0 {
        r := Err(AttenuationOutOfRange);
      } else {
        att1 := a;
        att2 := a;
        r := Ok(());
      }
    }
  }

  class Channel {
    const parent: EnhancedPna
    const cnum: int
    /** Number of sweep points, the length of the channel's frequency axis. */
    const npoints: nat
    /** Source power in dBm, `SOUR<cnum>:POW`. */
    var powerLevel: real

    constructor (parent: EnhancedPna, cnum: int, npoints: nat, powerLevel: real)
      ensures this.parent == parent && this.cnum == cnum && this.npoints == npoints
      ensures this.powerLevel == powerLevel
    {
      this.parent := parent;
      this.cnum := cnum;
      this.npoints := npoints;
      this.powerLevel := powerLevel;
    }

    /** Assigning `power_level`: the validator rejects values outside [-90, 0]. */
    method SetPowerLevel(p: real) returns (r: Result<(), PnaError>)
      modifies this`powerLevel
      ensures r.Ok? <==> ValidPowerLevel(p)
      ensures r.Ok? ==> powerLevel == p
      ensures r.Err? ==> r.error == PowerLevelOutOfRange && powerLevel == old(powerLevel)
    {
      if p < -90.0 || p > 0.0 {
        r := Err(PowerLevelOutOfRange);
      } else {
        powerLevel := p;
        r := Ok(());
      }
    }

    /** The power delivered past the attenuators: source level minus attenuation. */
    function GetPower(): (r: Result<real, PnaError>)
      requires parent.extAttn
      reads this, parent
      ensures r.Ok? <==> parent.att1 == parent.att2
      ensures r.Ok? ==> r.value == powerLevel - parent.att1
      ensures r.Err? ==> r.error == DissimilarAttenuation
    {
      match parent.GetAttn()
      case Ok(a) => Ok(powerLevel - a)
      case Err(e) => Err(e)
    }

    /** Requests `p` dBm past the attenuators. */
    method SetPower(p: real) returns (r: Result<(), PnaError>)
      requires parent.extAttn
      modifies this`powerLevel, parent`att1, parent`att2
      ensures r.Ok? <==> PowerSettings(p).Ok?
      ensures r.Ok? ==> powerLevel == PowerSettings(p).value.level
      ensures r.Ok? ==> parent.att1 == parent.att2 == PowerSettings(p).value.attenuation
      ensures r.Ok? ==> GetPower() == Ok(p)
      ensures p < MinReachablePower ==>
        r == Err(PowerBelowRange) && powerLevel == old(powerLevel) &&
        parent.att1 == old(parent.att1) && parent.att2 == old(parent.att2)
      // above the source's ceiling the attenuators are reset before the validator raises
      ensures p > MaxPowerLevel ==>
        r == Err(PowerLevelOutOfRange) && powerLevel == old(powerLevel) &&
        parent.att1 == 0.0 && parent.att2 == 0.0
    {
      if p >= -90.0 {
        var attnSet := parent.SetAttn(0.0);
        assert attnSet.Ok?;
        r := SetPowerLevel(p);
      } else if p >= -120.0 && p < -90.0 {
        var attnSet := parent.SetAttn(-p - 90.0);
        assert attnSet.Ok?;
        r := SetPowerLevel(-90.0);
      } else {
        r := Err(PowerBelowRange);
      }
    }

    /** Captures the S-parameters of `ports` (all ports when none are given) from
        the reply `raw` to the SNP data query. On a normal return the query
        format and the SNP trace format hold their values from entry again; when
        the reshape raises they are left as the capture set them. */
    method GetS2PNetwork(ports: Option<seq<int>>, raw: seq<real>) returns (r: Result<array3<Complex>, PnaError>)
      modifies parent`queryFormat, parent`snpFormat, parent`activeChannel
      ensures parent.activeChannel == cnum
      ensures var shape := ReplyRows(|raw|, npoints, |PortsOrDefault(ports, parent.nports)|);
        (r.Ok? <==> shape.Ok?) && (r.Err? ==> r.error == CaptureFailed(shape.error))
      ensures r.Ok? ==> parent.queryFormat == old(parent.queryFormat) && parent.snpFormat == old(parent.snpFormat)
      ensures r.Err? ==> parent.queryFormat == Binary64 && parent.snpFormat == "RI"
      ensures r.Ok? ==> var nports := |PortsOrDefault(ports, parent.nports)|;
        fresh(r.value) &&
        r.value.Length0 == npoints && r.value.Length1 == nports && r.value.Length2 == nports &&
        forall k, n, m :: 0 <= k < npoints && 0 <= n < nports && 0 <= m < nports ==>
          r.value[k, n, m] == Reshaped(raw, npoints, nports)[k][n][m]
    {
      var portList := PortsOrDefault(ports, parent.nports);
      var origQueryFmt := parent.queryFormat;
      parent.queryFormat := Binary64;
      parent.activeChannel := cnum;
      var origSnpFmt := parent.snpFormat;
      parent.snpFormat := "RI";
      var nports := |portList|;
      var shape := ReplyRows(|raw|, npoints, nports);
      if shape.Err? {
        return Err(CaptureFailed(shape.error));
      }
      var data := DataRows(raw, npoints, nports);
      DataRowsShape(raw, npoints, nports);
      var s := new Complex[npoints, nports, nports];
      FillNetwork(s, Evens(data), Odds(data), npoints, nports);
      parent.queryFormat := origQueryFmt;
      parent.snpFormat := origSnpFmt;
      r := Ok(s);
    }
  }
}
