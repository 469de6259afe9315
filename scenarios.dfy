/** Successive invocations against one counter file, with warning
    threshold 10 and critical threshold 20. */
module Scenarios {
  import opened Wrappers
  import opened LittleEndian
  import opened Verdict
  import opened Probe
  import opened ProbeProperties

  method ThresholdScenarios() {
    var cfg := Config("/var/tmp/hits.cnt", false, 0, 20, 10, "hits for elastic search.");
    var counter := new CounterFile(cfg.counterPath, None);

    // 15 fresh hits, no prior count: WARNING, and the file now holds 15.
    FirstAccumulation(cfg, 15, ALL_SUCCEED);
    var exit, out := counter.Run(cfg, Hits(15), ALL_SUCCEED);
    assert exit == 1;
    ReportRoundTrip(15, cfg);
    assert ParseStatusLine(out) == Some(Reading(WARNING, 15, "hits for elastic search.", 15, 10, 20));

    // 5 more hits: the total 20 reaches the critical threshold.
    Accumulation(EncodeLE(15), cfg, 5, ALL_SUCCEED);
    DecodeEncode(15);
    assert EncodeLE(15)[..WIDTH] == EncodeLE(15);
    exit, out := counter.Run(cfg, Hits(5), ALL_SUCCEED);
    assert exit == 2;
    assert counter.content == Some(EncodeLE(20));

    // The supervisor reports the state as OK again: the counter is purged.
    exit, out := counter.Run(cfg.(event := true), Hits(0), ALL_SUCCEED);
    assert exit == 0 && out == "" && counter.content == None;

    // An event for a non-OK state runs the probe as usual.
    exit, out := counter.Run(cfg.(event := true, currentStatus := 2), Hits(3), ALL_SUCCEED);
    assert exit == 0 && counter.content == Some(EncodeLE(3));
  }
}
