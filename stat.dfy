/** The metric function of src/mcstat/stat.py, over exact reals. */
module Stat {
  import opened Domain

  /** `metrics(timestamp, interval, channel, aggr)`. Python divides by
      `interval` without checking it, so a zero interval is an error the
      caller must avoid. */
  function Metrics(timestamp: real, interval: real, channel: Channel, aggr: Counts): (m: Metric)
    requires interval != 0.0
    ensures m.timestamp == timestamp && m.channel == channel
    ensures m.bitrate * interval * 1024.0 == (aggr.bytes * 8) as real
    ensures m.packets * interval == aggr.packets as real
  {
    Metric(timestamp, channel, (aggr.bytes * 8) as real / 1024.0 / interval,
           aggr.packets as real / interval)
  }

  /** An empty accumulator reports zero rates. */
  lemma ZeroRates(timestamp: real, interval: real, channel: Channel)
    requires interval > 0.0
    ensures Metrics(timestamp, interval, channel, Zero).bitrate == 0.0
    ensures Metrics(timestamp, interval, channel, Zero).packets == 0.0
  {
  }

  /** For a fixed positive interval, bitrate grows with bytes and packet rate
      with packets. */
  lemma Monotone(timestamp: real, interval: real, channel: Channel, a: Counts, b: Counts)
    requires interval > 0.0
    ensures a.bytes <= b.bytes ==>
              Metrics(timestamp, interval, channel, a).bitrate <= Metrics(timestamp, interval, channel, b).bitrate
    ensures a.packets <= b.packets ==>
              Metrics(timestamp, interval, channel, a).packets <= Metrics(timestamp, interval, channel, b).packets
  {
    var ma, mb := Metrics(timestamp, interval, channel, a), Metrics(timestamp, interval, channel, b);
    if a.bytes <= b.bytes {
      assert (mb.bitrate - ma.bitrate) * interval * 1024.0 == ((b.bytes - a.bytes) * 8) as real;
    }
    if a.packets <= b.packets {
      assert (mb.packets - ma.packets) * interval == (b.packets - a.packets) as real;
    }
  }

  /** Ten 100-byte datagrams in a one-second window: 10 packets/s and
      10 * 100 * 8 / 1024 = 7.8125 kbit/s. */
  lemma TenDatagrams(timestamp: real, channel: Channel)
    ensures Metrics(timestamp, 1.0, channel, Counts(10, 1000)).packets == 10.0
    ensures Metrics(timestamp, 1.0, channel, Counts(10, 1000)).bitrate == 7.8125
  {
  }
}
