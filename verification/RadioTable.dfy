/**
 The radio policy's profile table: the scan patterns ("rows") the executor runs, slot by slot, and
 the invariants the firmware asserts on them at compile time.
 */
module RadioTable {
  datatype Kind = K_NONE | K_C | K_M | K_N | K_W

  datatype Row =
    | N_CODED | N_HUNT | N_MIXED | NORMAL_LR | RECOVERY
    | SERVE_A | SERVE_A_DISC | SERVE_B | SERVE_B_DISC
    | APIDLE | APIDLE_DISC | AP_K1M | LR_AP_30 | LR_AP
    | ROW_NONE

  // A row's slots (the first n), the index of its Coded window, and its flags.
  datatype RowDef = RowDef(k0: Kind, m0: nat, k1: Kind, m1: nat, k2: Kind, m2: nat, k3: Kind, m3: nat,
                           n: nat, coded: nat, dither: bool, i1: bool, i8: bool)
  {
    function KindAt(i: nat): Kind {
      if i == 0 then k0 else if i == 1 then k1 else if i == 2 then k2 else k3
    }

    function MsAt(i: nat): nat {
      if i == 0 then m0 else if i == 1 then m1 else if i == 2 then m2 else m3
    }

    // The slots past the first n are empty.
    predicate Compact() {
      && (n <= 1 ==> k1 == K_NONE && m1 == 0) && (n <= 2 ==> k2 == K_NONE && m2 == 0)
      && (n <= 3 ==> k3 == K_NONE && m3 == 0)
    }

    // The slot after `i`, in turn.
    function Next(i: nat): nat {
      if i + 1 >= n then 0 else i + 1
    }
  }

  const JITTER_MS := 100
  const L_MS := 548
  const W_MIN_MS := 598
  const GAP_MAX_MS := 1404
  const BLIND_MAX_MS := 2800
  const I8_WIFI_MIN_MS := 300

  // A Coded window: the blind budget counts from its end.
  predicate KindCoded(k: Kind) {
    k == K_C || k == K_N
  }

  // `radio_policy_row`: any id that is no row's reads as N_CODED.
  function RowOf(row: Row): (r: RowDef)
    ensures 1 <= r.n <= 4 && r.coded < r.n && KindCoded(r.KindAt(r.coded))
    ensures r.m0 <= 1200 && r.m1 <= 1200 && r.m2 <= 1200 && r.m3 <= 1200 && r.Compact()
  {
    match row
    case N_CODED | ROW_NONE => RowDef(K_N, 1000, K_NONE, 0, K_NONE, 0, K_NONE, 0, 1, 0, true, true, false)
    case N_HUNT => RowDef(K_N, 1000, K_M, 450, K_NONE, 0, K_NONE, 0, 2, 0, true, true, false)
    case N_MIXED => RowDef(K_M, 1000, K_C, 1000, K_NONE, 0, K_NONE, 0, 2, 1, true, true, false)
    case NORMAL_LR => RowDef(K_M, 1000, K_C, 600, K_NONE, 0, K_NONE, 0, 2, 1, true, true, false)
    case RECOVERY => RowDef(K_C, 1200, K_NONE, 0, K_NONE, 0, K_NONE, 0, 1, 0, true, false, false)
    case SERVE_A => RowDef(K_C, 600, K_W, 600, K_NONE, 0, K_NONE, 0, 2, 0, false, true, true)
    case SERVE_A_DISC => RowDef(K_C, 600, K_W, 300, K_M, 300, K_W, 300, 4, 0, false, true, true)
    case SERVE_B => RowDef(K_C, 600, K_W, 1200, K_NONE, 0, K_NONE, 0, 2, 0, false, true, true)
    case SERVE_B_DISC => RowDef(K_C, 600, K_W, 600, K_M, 300, K_W, 300, 4, 0, false, true, true)
    case APIDLE => RowDef(K_C, 600, K_W, 300, K_NONE, 0, K_NONE, 0, 2, 0, false, true, true)
    case APIDLE_DISC => RowDef(K_C, 600, K_W, 300, K_M, 300, K_W, 300, 4, 0, false, true, true)
    case AP_K1M => RowDef(K_C, 600, K_W, 300, K_M, 600, K_W, 300, 4, 0, false, true, true)
    case LR_AP_30 => RowDef(K_M, 1200, K_C, 600, K_NONE, 0, K_NONE, 0, 2, 1, false, true, false)
    case LR_AP => RowDef(K_M, 600, K_W, 300, K_C, 600, K_W, 300, 4, 2, false, true, true)
  }

  function Period(r: RowDef): nat {
    r.m0 + r.m1 + r.m2 + r.m3
  }

  function CodedMs(r: RowDef): nat {
    (if KindCoded(r.k0) then r.m0 else 0) + (if KindCoded(r.k1) then r.m1 else 0) +
    (if KindCoded(r.k2) then r.m2 else 0) + (if KindCoded(r.k3) then r.m3 else 0)
  }

  // `radio_policy_row_gap_ms`: a row's own Coded gap.
  function RowGapMs(row: Row): nat {
    if row == ROW_NONE then 0
    else
      var r := RowOf(row);
      var p, c := Period(r), CodedMs(r);
      if 0 < c <= p then p - c else 0
  }
}
