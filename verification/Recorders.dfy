/** The statistics as an object that every component records to. */
module Recorders {
  import opened Model
  import opened Statistics

  class Stats {
    var totalLatency: nat
    var latencies: seq<nat>
    var perNode: map<nat, NodeLatency>
    var totalMemoryWait: nat
    var maxMemoryWait: nat
    var memoryWaitSamples: nat
    var peakQueueDepth: nat
    var peakChannelQueueDepth: nat
    var cacheHits: nat
    var cacheMisses: nat
    var perNodeHits: map<nat, nat>
    var perNodeMisses: map<nat, nat>
    var objects: Telemetry
    var channels: map<nat, map<nat, ChannelBucket>>

    ghost function View(): StatsState
      reads this
    {
      StatsState(totalLatency, latencies, perNode, totalMemoryWait, maxMemoryWait, memoryWaitSamples, peakQueueDepth,
                 peakChannelQueueDepth, cacheHits, cacheMisses, perNodeHits, perNodeMisses, objects, channels)
    }

    constructor ()
      ensures View() == NoStats
    {
      totalLatency, latencies, perNode := 0, [], map[];
      totalMemoryWait, maxMemoryWait, memoryWaitSamples, peakQueueDepth, peakChannelQueueDepth := 0, 0, 0, 0, 0;
      cacheHits, cacheMisses, perNodeHits, perNodeMisses := 0, 0, map[], map[];
      objects, channels := map[], map[];
    }

    method RecordLatency(node: nat, latency: nat)
      modifies this
      ensures View() == Statistics.RecordLatency(old(View()), node, latency)
    {
      totalLatency := totalLatency + latency;
      latencies := latencies + [latency];
      var known := if node in perNode then perNode[node] else NodeLatency(0, []);
      perNode := perNode[node := NodeLatency(known.total + latency, known.samples + [latency])];
    }

    method RecordMemoryWait(wait: nat)
      modifies this
      ensures View() == Statistics.RecordMemoryWait(old(View()), wait)
    {
      totalMemoryWait := totalMemoryWait + wait;
      memoryWaitSamples := memoryWaitSamples + 1;
      if wait > maxMemoryWait {
        maxMemoryWait := wait;
      }
    }

    method ObserveMemoryQueueDepth(depth: nat)
      modifies this
      ensures View() == ObserveDepth(old(View()), depth)
    {
      if depth > peakQueueDepth {
        peakQueueDepth := depth;
      }
      if depth > peakChannelQueueDepth {
        peakChannelQueueDepth := depth;
      }
    }

    method RecordCacheHit(node: nat)
      modifies this
      ensures View() == RecordHit(old(View()), node)
    {
      cacheHits := cacheHits + 1;
      perNodeHits := Plus(perNodeHits, node);
    }

    method RecordCacheMiss(node: nat)
      modifies this
      ensures View() == RecordMiss(old(View()), node)
    {
      cacheMisses := cacheMisses + 1;
      perNodeMisses := Plus(perNodeMisses, node);
    }

    method RecordRemoteAccess(request: Request, channel: nat, depth: nat)
      modifies this
      ensures View() == Statistics.RecordRemoteAccess(old(View()), request, channel, depth)
    {
      var bucket := Cell(objects, request.epoch, request.obj, NoObject);
      bucket := bucket.(accesses := bucket.accesses + 1, requesters := bucket.requesters + {request.source});
      if depth > bucket.maxDepth {
        bucket := bucket.(maxDepth := depth);
      }
      objects := Put(objects, request.epoch, request.obj, bucket);
      var channelBucket := Cell(channels, request.epoch, channel, NoChannel);
      channelBucket := channelBucket.(accesses := channelBucket.accesses + 1);
      if depth > channelBucket.maxDepth {
        channelBucket := channelBucket.(maxDepth := depth);
      }
      channels := Put(channels, request.epoch, channel, channelBucket);
    }

    method RecordObjectQueueWait(request: Request, channel: nat, wait: nat)
      modifies this
      ensures View() == RecordQueueWait(old(View()), request, channel, wait)
    {
      hide Put, Cell;
      var bucket := Cell(objects, request.epoch, request.obj, NoObject);
      bucket := bucket.(queueWait := bucket.queueWait + wait, waitSamples := bucket.waitSamples + 1);
      if wait > bucket.maxQueueWait {
        bucket := bucket.(maxQueueWait := wait);
      }
      objects := Put(objects, request.epoch, request.obj, bucket);
      var channelBucket := Cell(channels, request.epoch, channel, NoChannel);
      channelBucket := channelBucket.(queueWait := channelBucket.queueWait + wait,
                                      waitSamples := channelBucket.waitSamples + 1);
      if wait > channelBucket.maxQueueWait {
        channelBucket := channelBucket.(maxQueueWait := wait);
      }
      channels := Put(channels, request.epoch, channel, channelBucket);
    }

    method RecordObjectService(request: Request, channel: nat, service: nat)
      modifies this
      ensures View() == RecordService(old(View()), request, channel, service)
    {
      var bucket := Cell(objects, request.epoch, request.obj, NoObject);
      objects := Put(objects, request.epoch, request.obj,
                     bucket.(serviceTime := bucket.serviceTime + service, bytes := bucket.bytes + request.size));
      var channelBucket := Cell(channels, request.epoch, channel, NoChannel);
      channels := Put(channels, request.epoch, channel,
                      channelBucket.(serviceTime := channelBucket.serviceTime + service,
                                     bytes := channelBucket.bytes + request.size));
    }
  }
}
