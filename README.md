# Wind-turbine audio telemetry: a Dafny model

The STWIN.box wind-turbine monitor records microphone audio in 512-sample
frames and runs it through a three-stage pipeline.

1. The feature-extraction thread accumulates four frames (2048 samples). From
   them it computes a set of audio features and packs them into one packed
   64-byte `AudioTelemetryPacket_t`:
   - RMS in Q15;
   - zero-crossing rate;
   - SPL in dB;
   - peak amplitude;
   - eight spectral band magnitudes.
2. It puts the packet on a depth-2 queue without waiting.
3. A telemetry thread takes packets off that queue and sends them as UDP
   datagrams. The firmware tree holds three divergent versions of this
   telemetry module:
   - The STM32CubeIDE version stamps each packet with its own sequence
     number, broadcasts it to port 5001, and keeps the newest ten in a ring
     that overwrites when full.
   - The `Core/Src` version keeps a ring that refuses packets when full. Its
     `Telemetry_GetLastPacket` pops the oldest entry.
   - The NetX Duo application version sends either by broadcast or by unicast
     to a configurable receiver. It caches the last packet for the web
     dashboard.

The project models each of these as Dafny code:

| file | module | models |
|---|---|---|
| `platform.dfy` | `Platform` | C integer widths, `x++` on a `uint32_t`, the `uint16_t` truncation, and RTOS and network results as values |
| `packet_format.dfy` | `PacketFormat` | the constants and the 64-byte little-endian packet: `Encode`, `Decode` and both round trips |
| `audio_features.dfy` | `AudioFeatures` | the integer side of the feature maths |
| `feature_extraction.dfy` | `FeatureExtraction` | the accumulator and the thread step, as class `FeatureExtractor` |
| `ring.dfy` | `Ring` | the ten-slot ring shared by two senders, read as a sequence oldest first |
| `cube_telemetry.dfy` | `CubeTelemetry` | the overwriting sender |
| `core_telemetry.dfy` | `CoreTelemetry` | the rejecting sender |
| `netx_telemetry.dfy` | `NetXTelemetry` | the configurable sender |

In `AudioFeatures`, the loops of the zero-crossing rate, the peak search and
the band pass are methods. Each is proved against a specification function.

Each sender is a class whose methods update its fields in place.
- The ring buffers are `array`s.
- Each ring has a ghost `Contents()`, the buffered packets oldest first. Every
  operation is specified against it.
- A thread loop is modelled as one `Step` method per pass.
- The result of each ThreadX or NetX Duo call becomes an input of type
  `Status` or `Receive`.
- A datagram that leaves the board becomes an output of type `Datagram`:
  its address, its port and its payload. It is produced only when every
  call on its path succeeds, the send included.

## Model

Source paths are relative to
`stm32/STWINBX1_WIFI-main/Projects/STWIN.box/Applications/NetXDuo/Nx_WebServer/`,
written out in full in the table.

| member | source | states |
|---|---|---|
| Platform.Low16OfInc32 | stm32/STWINBX1_WIFI-main/Projects/STWIN.box/Applications/NetXDuo/Nx_WebServer/STM32CubeIDE/Application/User/Core/app_telemetry.c:177 | Incrementing a wrapping 32-bit counter and then keeping its low 16 bits equals keeping the low 16 bits and adding 1 modulo 65536. |
| PacketFormat.FromLe16Le16 | stm32/STWINBX1_WIFI-main/Projects/STWIN.box/Applications/NetXDuo/Nx_WebServer/Core/Inc/audio_features.h:44 | Reading back the two little-endian bytes of a uint16 gives the value. |
| PacketFormat.FromLe32Le32 | stm32/STWINBX1_WIFI-main/Projects/STWIN.box/Applications/NetXDuo/Nx_WebServer/Core/Inc/audio_features.h:44 | Reading back the four little-endian bytes of a uint32 gives the value. |
| PacketFormat.BandBytesAt | stm32/STWINBX1_WIFI-main/Projects/STWIN.box/Applications/NetXDuo/Nx_WebServer/Core/Inc/audio_features.h:72 | Band i of the band array lies at bytes 4i to 4i+3, little-endian. |
| PacketFormat.BandsOfBandBytes | stm32/STWINBX1_WIFI-main/Projects/STWIN.box/Applications/NetXDuo/Nx_WebServer/Core/Inc/audio_features.h:72 | Decoding the encoded band array gives the bands back. |
| PacketFormat.BandBytesBandsOf | stm32/STWINBX1_WIFI-main/Projects/STWIN.box/Applications/NetXDuo/Nx_WebServer/Core/Inc/audio_features.h:72 | Any byte run of whole words is the encoding of the bands it decodes to. |
| PacketFormat.Encode | stm32/STWINBX1_WIFI-main/Projects/STWIN.box/Applications/NetXDuo/Nx_WebServer/Core/Inc/audio_features.h:49-86 | Every packet encodes to exactly 64 bytes, the size the compile-time assertion fixes. |
| PacketFormat.Decode | stm32/STWINBX1_WIFI-main/Projects/STWIN.box/Applications/NetXDuo/Nx_WebServer/Core/Inc/audio_features.h:49-86 | A byte string decodes to a packet exactly when it is 64 bytes long. |
| PacketFormat.EncodeLayout | stm32/STWINBX1_WIFI-main/Projects/STWIN.box/Applications/NetXDuo/Nx_WebServer/Core/Inc/audio_features.h:49-83 | Every field sits at its fixed offset of the packed layout. The offsets are: version 0, reserved 1, sequence 2-3, timestamp 4-7, RMS 8-9, RMS padding 10-11, ZCR count 12-13, ZCR rate 14-15, SPL 16-17, peak 18-19, bands 20-51, node 52, status 53, error count 54-55, uptime 56-59, reserved 60-63. |
| PacketFormat.EncodeBandOffset | stm32/STWINBX1_WIFI-main/Projects/STWIN.box/Applications/NetXDuo/Nx_WebServer/Core/Inc/audio_features.h:71-72 | Band i of an encoded packet is at bytes 20+4i to 23+4i. |
| PacketFormat.DecodeEncode | stm32/STWINBX1_WIFI-main/Projects/STWIN.box/Applications/NetXDuo/Nx_WebServer/Core/Inc/audio_features.h:44-83 | Decoding an encoded packet returns every field unchanged. |
| PacketFormat.DecodedHeader | stm32/STWINBX1_WIFI-main/Projects/STWIN.box/Applications/NetXDuo/Nx_WebServer/Core/Inc/audio_features.h:51-57 | Re-encoding the header of a decoded 64-byte string gives its first 8 bytes. |
| PacketFormat.DecodedFeatures | stm32/STWINBX1_WIFI-main/Projects/STWIN.box/Applications/NetXDuo/Nx_WebServer/Core/Inc/audio_features.h:59-69 | Re-encoding the scalar features of a decoded 64-byte string gives its bytes 8 to 19. |
| PacketFormat.DecodedTrailer | stm32/STWINBX1_WIFI-main/Projects/STWIN.box/Applications/NetXDuo/Nx_WebServer/Core/Inc/audio_features.h:74-81 | Re-encoding the trailer of a decoded 64-byte string gives its last 12 bytes. |
| PacketFormat.EncodeDecode | stm32/STWINBX1_WIFI-main/Projects/STWIN.box/Applications/NetXDuo/Nx_WebServer/Core/Inc/audio_features.h:44-86 | Every 64-byte string decodes, and re-encoding the result gives the same bytes, so encoding is a bijection onto 64-byte strings. |
| PacketFormat.SamplesPerPacket | stm32/STWINBX1_WIFI-main/Projects/STWIN.box/Applications/NetXDuo/Nx_WebServer/Core/Inc/audio_features.h:27-29 | A packet covers 512 × 4 = 2048 samples, a whole number of frames. |
| AudioFeatures.CalculateRms | stm32/STWINBX1_WIFI-main/Projects/STWIN.box/Applications/NetXDuo/Nx_WebServer/Core/Src/audio_features.c:42-67 | No samples gives 0. Every result is within Q15 (at most 32767). |
| AudioFeatures.RmsMonotone | stm32/STWINBX1_WIFI-main/Projects/STWIN.box/Applications/NetXDuo/Nx_WebServer/Core/Src/audio_features.c:58-66 | The saturation and truncation keep order: a larger normalized RMS never gives a smaller Q15 value. |
| AudioFeatures.CalculateSpl | stm32/STWINBX1_WIFI-main/Projects/STWIN.box/Applications/NetXDuo/Nx_WebServer/Core/Src/audio_features.c:128-136 | The SPL is clamped to 0..120 dB. Below 0 it gives 0 and above 120 it gives 120. In between it is the level truncated to whole dB. |
| AudioFeatures.Crossings | stm32/STWINBX1_WIFI-main/Projects/STWIN.box/Applications/NetXDuo/Nx_WebServer/Core/Src/audio_features.c:85-93 | A signal of n samples has fewer than n sign changes, and none when it is empty. |
| AudioFeatures.CrossingsCountIndices | stm32/STWINBX1_WIFI-main/Projects/STWIN.box/Applications/NetXDuo/Nx_WebServer/Core/Src/audio_features.c:85-93 | The running count equals the number of indices i in [1, n) where exactly one of samples i-1 and i is negative. |
| AudioFeatures.ZcrPercent | stm32/STWINBX1_WIFI-main/Projects/STWIN.box/Applications/NetXDuo/Nx_WebServer/Core/Src/audio_features.c:78-104 | Fewer than 2 samples give 0. Every result is at most 100, even where the 32-bit product wraps. |
| AudioFeatures.ZcrWithoutOverflow | stm32/STWINBX1_WIFI-main/Projects/STWIN.box/Applications/NetXDuo/Nx_WebServer/Core/Src/audio_features.c:97-103 | Wherever crossings × 100 fits in 32 bits, the rate is exactly crossings × 100 / count. It is then below 100, so the clamp never fires. |
| AudioFeatures.WrappedQuotient | stm32/STWINBX1_WIFI-main/Projects/STWIN.box/Applications/NetXDuo/Nx_WebServer/Core/Src/audio_features.c:97 | For at most 42,949,673 samples, the uint32 product and the uint16 cast leave crossings × 100 / count unchanged, and it is below 100. |
| AudioFeatures.ScaledBelowHundred | stm32/STWINBX1_WIFI-main/Projects/STWIN.box/Applications/NetXDuo/Nx_WebServer/Core/Src/audio_features.c:97-101 | A count below n is below 100 percent of n after integer division. |
| AudioFeatures.CalculateZcr | stm32/STWINBX1_WIFI-main/Projects/STWIN.box/Applications/NetXDuo/Nx_WebServer/Core/Src/audio_features.c:78-104 | The counting loop computes `ZcrPercent`, with its uint32 product and uint16 cast, and the result is at most 100. |
| AudioFeatures.Magnitude | stm32/STWINBX1_WIFI-main/Projects/STWIN.box/Applications/NetXDuo/Nx_WebServer/Core/Src/audio_features.c:154-159 | The int16 negation followed by the uint16 cast gives the true magnitude, because the two wrap-arounds cancel; for -32768 that is 32768. |
| AudioFeatures.MaxMagnitude | stm32/STWINBX1_WIFI-main/Projects/STWIN.box/Applications/NetXDuo/Nx_WebServer/Core/Src/audio_features.c:145-163 | The largest magnitude of a batch never exceeds 32768. |
| AudioFeatures.MaxMagnitudeIsPeak | stm32/STWINBX1_WIFI-main/Projects/STWIN.box/Applications/NetXDuo/Nx_WebServer/Core/Src/audio_features.c:152-162 | The maximum bounds every sample's magnitude and equals the magnitude of some sample. It is at most 32767 exactly when no sample is -32768. |
| AudioFeatures.FindPeakAmplitude | stm32/STWINBX1_WIFI-main/Projects/STWIN.box/Applications/NetXDuo/Nx_WebServer/Core/Src/audio_features.c:145-163 | The loop returns 0 for no samples and otherwise the largest sample magnitude: it is at least every sample's magnitude and equals one of them. The documented ceiling of 32767 holds exactly when no sample is -32768. |
| AudioFeatures.BandRanges | stm32/STWINBX1_WIFI-main/Projects/STWIN.box/Applications/NetXDuo/Nx_WebServer/Core/Src/audio_features.c:190-205 | The bin width is 31 Hz and a band has 32 bins. The eight ranges have 32 bins each, are adjacent, and run from bin 0 to bin 256. |
| AudioFeatures.BinInExactlyOneBand | stm32/STWINBX1_WIFI-main/Projects/STWIN.box/Applications/NetXDuo/Nx_WebServer/Core/Src/audio_features.c:198-205 | Each bin below the Nyquist limit lies in exactly one band, namely band k / 32. The ranges are therefore disjoint and cover every bin. |
| AudioFeatures.ClampBand | stm32/STWINBX1_WIFI-main/Projects/STWIN.box/Applications/NetXDuo/Nx_WebServer/Core/Src/audio_features.c:231-233 | A band magnitude is at most 1,000,000 and is kept as is when within it. |
| AudioFeatures.ComputeFftBands | stm32/STWINBX1_WIFI-main/Projects/STWIN.box/Applications/NetXDuo/Nx_WebServer/Core/Src/audio_features.c:174-239 | All eight bands are written. Band b holds the clamped magnitude of its bin range over the first 512 samples, and every band is at most 1,000,000. |
| FeatureExtraction.OrAllSnoc | stm32/STWINBX1_WIFI-main/Projects/STWIN.box/Applications/NetXDuo/Nx_WebServer/STM32CubeIDE/Application/User/Core/feature_extraction.c:222-223 | Merging one more frame's flags ORs them into the running value. |
| FeatureExtraction.AnySnoc | stm32/STWINBX1_WIFI-main/Projects/STWIN.box/Applications/NetXDuo/Nx_WebServer/STM32CubeIDE/Application/User/Core/feature_extraction.c:222-223 | Some frame of a longer batch carries a property exactly when some earlier frame or the new one does. |
| FeatureExtraction.OrAllHasBit | stm32/STWINBX1_WIFI-main/Projects/STWIN.box/Applications/NetXDuo/Nx_WebServer/STM32CubeIDE/Application/User/Core/feature_extraction.c:222-223 | A bit is set in the merged flags exactly when some frame of the batch carried it: no bit is invented and none is lost. |
| FeatureExtraction.SeqNumberWraps | stm32/STWINBX1_WIFI-main/Projects/STWIN.box/Applications/NetXDuo/Nx_WebServer/STM32CubeIDE/Application/User/Core/feature_extraction.c:289-291 | After post-increment and the reset above 65535, the counter runs 0, 1, …, 65535, 0, …, which is n+1 modulo 65536. |
| FeatureExtraction.BandValues | stm32/STWINBX1_WIFI-main/Projects/STWIN.box/Applications/NetXDuo/Nx_WebServer/STM32CubeIDE/Application/User/Core/feature_extraction.c:324-335 | The eight bands copied into the packet are each at most 1,000,000. |
| FeatureExtraction.StatusByte | stm32/STWINBX1_WIFI-main/Projects/STWIN.box/Applications/NetXDuo/Nx_WebServer/STM32CubeIDE/Application/User/Core/feature_extraction.c:299 | The status byte carries the merged flags bit for bit. |
| FeatureExtraction.AssemblePacket | stm32/STWINBX1_WIFI-main/Projects/STWIN.box/Applications/NetXDuo/Nx_WebServer/STM32CubeIDE/Application/User/Core/feature_extraction.c:285-335 | The assembled packet has version 0x01, the given sequence number and timestamp, RMS ≤ 32767, ZCR ≤ 100, SPL ≤ 120, every band ≤ 1,000,000, peak = the largest sample magnitude, `zcr_count` = half the batch length modulo 65536, the node id's low byte, the flags as the status byte, the error count modulo 65536, uptime = elapsed ms / 1000, and zero reserved fields. |
| FeatureExtraction.PacketStatusBits | stm32/STWINBX1_WIFI-main/Projects/STWIN.box/Applications/NetXDuo/Nx_WebServer/STM32CubeIDE/Application/User/Core/feature_extraction.c:222-223 | A packet's error bit (bit 0) and clipping bit (bit 1) are set exactly when some frame of its batch carried them. |
| FeatureExtraction.FeatureExtractor.constructor | stm32/STWINBX1_WIFI-main/Projects/STWIN.box/Applications/NetXDuo/Nx_WebServer/STM32CubeIDE/Application/User/Core/feature_extraction.c:42-45 | The zeroed context: an empty batch, counters at 0, not running, node 1. |
| FeatureExtraction.FeatureExtractor.Start | stm32/STWINBX1_WIFI-main/Projects/STWIN.box/Applications/NetXDuo/Nx_WebServer/STM32CubeIDE/Application/User/Core/feature_extraction.c:121-136 | A missing queue or thread stack is a pointer error and changes nothing. Otherwise the stage records the boot tick, runs, and returns the resume status. |
| FeatureExtraction.FeatureExtractor.ProcessBuffer | stm32/STWINBX1_WIFI-main/Projects/STWIN.box/Applications/NetXDuo/Nx_WebServer/STM32CubeIDE/Application/User/Core/feature_extraction.c:275-338 | An empty accumulator gives -1 and leaves the counter alone. Otherwise it gives 0, the packet `AssemblePacket` builds from the batch with the old sequence number, and the wrapped next counter. |
| FeatureExtraction.FeatureExtractor.CopyFrame | stm32/STWINBX1_WIFI-main/Projects/STWIN.box/Applications/NetXDuo/Nx_WebServer/STM32CubeIDE/Application/User/Core/feature_extraction.c:209-214 | The frame lands at offset `sample_count`, and the samples already held are unchanged. |
| FeatureExtraction.FeatureExtractor.AppendFrame | stm32/STWINBX1_WIFI-main/Projects/STWIN.box/Applications/NetXDuo/Nx_WebServer/STM32CubeIDE/Application/User/Core/feature_extraction.c:209-224 | The batch grows by exactly the frame's samples, the count by 512, and the merged flags by an OR with the frame's flags. The start timestamp stays 0, because its branch is dead. |
| FeatureExtraction.FeatureExtractor.ResetBatch | stm32/STWINBX1_WIFI-main/Projects/STWIN.box/Applications/NetXDuo/Nx_WebServer/STM32CubeIDE/Application/User/Core/feature_extraction.c:255-257 | Every accumulator sample, the count, the merged flags and the unused frame count are zero. |
| FeatureExtraction.FeatureExtractor.EmitBatch | stm32/STWINBX1_WIFI-main/Projects/STWIN.box/Applications/NetXDuo/Nx_WebServer/STM32CubeIDE/Application/User/Core/feature_extraction.c:227-258 | A full batch always yields a packet with timestamp 0. Exactly one of the packet and error counters goes up, depending on whether the queue had room. The accumulator is then reset whatever the outcome. |
| FeatureExtraction.FeatureExtractor.ConsumeFrame | stm32/STWINBX1_WIFI-main/Projects/STWIN.box/Applications/NetXDuo/Nx_WebServer/STM32CubeIDE/Application/User/Core/feature_extraction.c:208-258 | A frame that leaves the batch short is appended and changes no counter. The frame that completes it causes exactly one emission and a reset. |
| FeatureExtraction.FeatureExtractor.Step | stm32/STWINBX1_WIFI-main/Projects/STWIN.box/Applications/NetXDuo/Nx_WebServer/STM32CubeIDE/Application/User/Core/feature_extraction.c:184-259 | Suspended, or on a timeout, nothing changes. Another receive error raises the error count by one and keeps the batch. A frame is consumed as above. The count never exceeds 2048 between steps. |
| Ring.RingView | stm32/STWINBX1_WIFI-main/Projects/STWIN.box/Applications/NetXDuo/Nx_WebServer/STM32CubeIDE/Application/User/Core/app_telemetry.c:30-36 | The buffered items are the `count` slots starting at the read slot, modulo 10, oldest first. |
| Ring.RingAppend | stm32/STWINBX1_WIFI-main/Projects/STWIN.box/Applications/NetXDuo/Nx_WebServer/STM32CubeIDE/Application/User/Core/app_telemetry.c:315-321 | Writing the slot after the newest one of a ring that is not full appends the item. |
| Ring.RingOverwrite | stm32/STWINBX1_WIFI-main/Projects/STWIN.box/Applications/NetXDuo/Nx_WebServer/STM32CubeIDE/Application/User/Core/app_telemetry.c:315-323 | In a full ring, writing the oldest slot and moving the read slot on drops the oldest item and appends the new one. |
| Ring.PutIndices | stm32/STWINBX1_WIFI-main/Projects/STWIN.box/Applications/NetXDuo/Nx_WebServer/STM32CubeIDE/Application/User/Core/app_telemetry.c:311-328 | A put keeps the index invariant. The write slot moves on modulo 10. In a full ring the write slot is the read slot, and the read slot moves on too. |
| Ring.RingOverwritingPut | stm32/STWINBX1_WIFI-main/Projects/STWIN.box/Applications/NetXDuo/Nx_WebServer/STM32CubeIDE/Application/User/Core/app_telemetry.c:311-328 | Writing the write slot appends the item to a ring with room. In a full ring, once the read slot moves on, the oldest item is dropped and the new one appended. |
| Ring.RingAdvance | stm32/STWINBX1_WIFI-main/Projects/STWIN.box/Applications/NetXDuo/Nx_WebServer/STM32CubeIDE/Application/User/Core/app_telemetry.c:344-346 | Moving the read slot on drops exactly the oldest item. |
| CubeTelemetry.Newest | stm32/STWINBX1_WIFI-main/Projects/STWIN.box/Applications/NetXDuo/Nx_WebServer/STM32CubeIDE/Application/User/Core/app_telemetry.c:318-323 | A suffix of at most n items. |
| CubeTelemetry.PutAll | stm32/STWINBX1_WIFI-main/Projects/STWIN.box/Applications/NetXDuo/Nx_WebServer/STM32CubeIDE/Application/User/Core/app_telemetry.c:311-328 | However many packets are put, the ring never holds more than 10. |
| CubeTelemetry.OverwritePutEffect | stm32/STWINBX1_WIFI-main/Projects/STWIN.box/Applications/NetXDuo/Nx_WebServer/STM32CubeIDE/Application/User/Core/app_telemetry.c:315-323 | A put keeps the new packet as the newest and at most 10 in all. It evicts exactly the oldest entry when, and only when, the ring was full. |
| CubeTelemetry.OverwritePutNewest | stm32/STWINBX1_WIFI-main/Projects/STWIN.box/Applications/NetXDuo/Nx_WebServer/STM32CubeIDE/Application/User/Core/app_telemetry.c:315-323 | A put leaves exactly the newest ten of what was held plus the new packet. |
| CubeTelemetry.NewestOfNewest | stm32/STWINBX1_WIFI-main/Projects/STWIN.box/Applications/NetXDuo/Nx_WebServer/STM32CubeIDE/Application/User/Core/app_telemetry.c:315-323 | Trimming to the newest n before appending more changes nothing once trimmed again. |
| CubeTelemetry.PutAllKeepsNewest | stm32/STWINBX1_WIFI-main/Projects/STWIN.box/Applications/NetXDuo/Nx_WebServer/STM32CubeIDE/Application/User/Core/app_telemetry.c:311-328 | After any run of puts the ring holds exactly the newest ten packets, in the order they were put. |
| CubeTelemetry.Stamp | stm32/STWINBX1_WIFI-main/Projects/STWIN.box/Applications/NetXDuo/Nx_WebServer/STM32CubeIDE/Application/User/Core/app_telemetry.c:177 | Stamping sets the sequence field to the counter's low 16 bits and changes no other field. |
| CubeTelemetry.StampsAreConsecutive | stm32/STWINBX1_WIFI-main/Projects/STWIN.box/Applications/NetXDuo/Nx_WebServer/STM32CubeIDE/Application/User/Core/app_telemetry.c:177 | Consecutive received packets carry consecutive sequence numbers modulo 65536, across the 32-bit wrap too. |
| CubeTelemetry.Telemetry.constructor | stm32/STWINBX1_WIFI-main/Projects/STWIN.box/Applications/NetXDuo/Nx_WebServer/STM32CubeIDE/Application/User/Core/app_telemetry.c:39-46 | The zero-initialised statics: an empty ring, counters at 0, neither initialised nor started. |
| CubeTelemetry.Telemetry.BufferInit | stm32/STWINBX1_WIFI-main/Projects/STWIN.box/Applications/NetXDuo/Nx_WebServer/STM32CubeIDE/Application/User/Core/app_telemetry.c:297-304 | Both indices and the count are 0, so the ring is empty. |
| CubeTelemetry.Telemetry.BufferPut | stm32/STWINBX1_WIFI-main/Projects/STWIN.box/Applications/NetXDuo/Nx_WebServer/STM32CubeIDE/Application/User/Core/app_telemetry.c:311-328 | The put always returns 1, stores at the write slot and advances it modulo 10. The contents become `OverwritePut` of the old contents, and the ring invariant is kept. |
| CubeTelemetry.Telemetry.BufferGet | stm32/STWINBX1_WIFI-main/Projects/STWIN.box/Applications/NetXDuo/Nx_WebServer/STM32CubeIDE/Application/User/Core/app_telemetry.c:337-353 | An empty ring returns 0 and nothing changes. Otherwise the get returns 1 and the oldest packet, removes exactly that packet, and moves the read slot on modulo 10. |
| CubeTelemetry.Telemetry.GetLastPacket | stm32/STWINBX1_WIFI-main/Projects/STWIN.box/Applications/NetXDuo/Nx_WebServer/STM32CubeIDE/Application/User/Core/app_telemetry.c:245-264 | Without changing anything, it returns 1 and the newest buffered packet, taken from the slot before the write index. It returns 0 before initialisation or on an empty ring. |
| CubeTelemetry.Telemetry.Init | stm32/STWINBX1_WIFI-main/Projects/STWIN.box/Applications/NetXDuo/Nx_WebServer/STM32CubeIDE/Application/User/Core/app_telemetry.c:67-95 | A second call succeeds and changes nothing. A missing pool or a failed allocation returns its status and changes nothing. Otherwise the ring is emptied and the module initialised. |
| CubeTelemetry.Telemetry.Start | stm32/STWINBX1_WIFI-main/Projects/STWIN.box/Applications/NetXDuo/Nx_WebServer/STM32CubeIDE/Application/User/Core/app_telemetry.c:103-152 | Before initialisation, or without a queue, it is a pointer error and nothing changes. Otherwise the call returns the first failing status of socket creation, bind and thread creation. It marks the module started only when all three succeed. |
| CubeTelemetry.Telemetry.SendUdp | stm32/STWINBX1_WIFI-main/Projects/STWIN.box/Applications/NetXDuo/Nx_WebServer/STM32CubeIDE/Application/User/Core/app_telemetry.c:206-238 | Before start it returns not-enabled. Otherwise it returns the first failing status. A datagram is sent exactly on success: the 64 encoded bytes, broadcast to port 5001, which decode back to the packet. |
| CubeTelemetry.Telemetry.Forward | stm32/STWINBX1_WIFI-main/Projects/STWIN.box/Applications/NetXDuo/Nx_WebServer/STM32CubeIDE/Application/User/Core/app_telemetry.c:174-191 | The packet is stamped with the post-incremented counter and sent. Exactly one of tx and error counts goes up. The stamped packet is buffered whatever the send outcome. |
| CubeTelemetry.Telemetry.Step | stm32/STWINBX1_WIFI-main/Projects/STWIN.box/Applications/NetXDuo/Nx_WebServer/STM32CubeIDE/Application/User/Core/app_telemetry.c:167-198 | A timeout changes nothing. Another receive error raises the error count by one and leaves the ring as it was. A received packet is forwarded as above. |
| CoreTelemetry.RejectPut | stm32/STWINBX1_WIFI-main/Projects/STWIN.box/Applications/NetXDuo/Nx_WebServer/Core/Src/app_telemetry.c:149-165 | A put into a ring that refuses when full leaves a full ring as it was. |
| CoreTelemetry.PutAll | stm32/STWINBX1_WIFI-main/Projects/STWIN.box/Applications/NetXDuo/Nx_WebServer/Core/Src/app_telemetry.c:149-165 | However many packets are put, the ring never holds more than 10. |
| CoreTelemetry.PutAllKeepsEarliest | stm32/STWINBX1_WIFI-main/Projects/STWIN.box/Applications/NetXDuo/Nx_WebServer/Core/Src/app_telemetry.c:151-164 | After any run of puts the ring holds what it held plus the earliest packets that fitted. Once full, every later packet is lost. |
| CoreTelemetry.FifoOrder | stm32/STWINBX1_WIFI-main/Projects/STWIN.box/Applications/NetXDuo/Nx_WebServer/Core/Src/app_telemetry.c:172-188 | From a ring filled from empty, a get returns the first packet put, and the others remain in order. |
| CoreTelemetry.Telemetry.constructor | stm32/STWINBX1_WIFI-main/Projects/STWIN.box/Applications/NetXDuo/Nx_WebServer/Core/Src/app_telemetry.c:27-31 | The zero-initialised statics: an empty ring, counter 0, not initialised. |
| CoreTelemetry.Telemetry.BufferInit | stm32/STWINBX1_WIFI-main/Projects/STWIN.box/Applications/NetXDuo/Nx_WebServer/Core/Src/app_telemetry.c:135-142 | Both indices and the count are 0, so the ring is empty. |
| CoreTelemetry.Telemetry.Init | stm32/STWINBX1_WIFI-main/Projects/STWIN.box/Applications/NetXDuo/Nx_WebServer/Core/Src/app_telemetry.c:43-51 | Init is idempotent: the first call empties the ring, and later calls change nothing. |
| CoreTelemetry.Telemetry.BufferPut | stm32/STWINBX1_WIFI-main/Projects/STWIN.box/Applications/NetXDuo/Nx_WebServer/Core/Src/app_telemetry.c:149-165 | A full ring returns false and nothing changes. Otherwise the put returns true, stores at the write slot and advances it modulo 10. The contents become `RejectPut` of the old contents. |
| CoreTelemetry.Telemetry.BufferGet | stm32/STWINBX1_WIFI-main/Projects/STWIN.box/Applications/NetXDuo/Nx_WebServer/Core/Src/app_telemetry.c:172-188 | An empty ring returns false and nothing changes. Otherwise the get returns the oldest packet and removes exactly that packet. |
| CoreTelemetry.Telemetry.GetLastPacket | stm32/STWINBX1_WIFI-main/Projects/STWIN.box/Applications/NetXDuo/Nx_WebServer/Core/Src/app_telemetry.c:86-93 | Before initialisation it returns false. Otherwise it is destructive: it removes and returns the OLDEST packet, not the latest. |
| CoreTelemetry.Telemetry.Start | stm32/STWINBX1_WIFI-main/Projects/STWIN.box/Applications/NetXDuo/Nx_WebServer/Core/Src/app_telemetry.c:58-79 | A failed socket create leaves the socket as it was. After a successful create, the socket is bound exactly when the bind succeeds; a failed bind deletes it. |
| CoreTelemetry.Telemetry.AddPacket | stm32/STWINBX1_WIFI-main/Projects/STWIN.box/Applications/NetXDuo/Nx_WebServer/Core/Src/app_telemetry.c:100-128 | Before initialisation it returns false and nothing changes. Otherwise a copy is stamped with the post-incremented counter, and the counter advances even when the copy is dropped. The copy is put into the ring, and the result is the put's. It leaves as a broadcast to port 12345 exactly when allocation, append and send succeed on a bound socket. A packet that was allocated and appended but not sent is never released: the leak count rises by one. |
| NetXTelemetry.Telemetry.constructor | stm32/STWINBX1_WIFI-main/Projects/STWIN.box/Applications/NetXDuo/Nx_WebServer/NetXDuo/App/app_telemetry.c:43-48 | The zero-initialised context: not ready, not running, counters 0, no cached packet. |
| NetXTelemetry.Telemetry.Destination | stm32/STWINBX1_WIFI-main/Projects/STWIN.box/Applications/NetXDuo/Nx_WebServer/NetXDuo/App/app_telemetry.c:358-373 | With broadcast on the destination is 255.255.255.255, and otherwise the receiver address. The port is always the receiver port, and the address is never 0 once initialised. |
| NetXTelemetry.Telemetry.Init | stm32/STWINBX1_WIFI-main/Projects/STWIN.box/Applications/NetXDuo/Nx_WebServer/NetXDuo/App/app_telemetry.c:61-104 | A missing pool or IP instance is a pointer error and changes nothing. Otherwise the defaults are in place whatever the allocation and thread outcome: broadcast on, receiver 0xFFFFFFFF:5000, counters 0, not ready, not running. The call returns the first failing status, and the dashboard cache is kept. |
| NetXTelemetry.Telemetry.CreateSocket | stm32/STWINBX1_WIFI-main/Projects/STWIN.box/Applications/NetXDuo/Nx_WebServer/NetXDuo/App/app_telemetry.c:280-315 | Without an IP instance it is a pointer error. Otherwise it returns the first failing status of socket creation and bind. |
| NetXTelemetry.Telemetry.Start | stm32/STWINBX1_WIFI-main/Projects/STWIN.box/Applications/NetXDuo/Nx_WebServer/NetXDuo/App/app_telemetry.c:112-135 | A missing queue is a pointer error and nothing changes. The receiver address is replaced only by a nonzero argument. Ready and running are set only after the socket succeeds, and the call then returns the resume status. |
| NetXTelemetry.Telemetry.SetReceiver | stm32/STWINBX1_WIFI-main/Projects/STWIN.box/Applications/NetXDuo/Nx_WebServer/NetXDuo/App/app_telemetry.c:143-152 | Address 0 is refused and nothing changes. Otherwise the address and port are stored. |
| NetXTelemetry.Telemetry.SetBroadcast | stm32/STWINBX1_WIFI-main/Projects/STWIN.box/Applications/NetXDuo/Nx_WebServer/NetXDuo/App/app_telemetry.c:159-163 | The flag is stored as given and the call succeeds. |
| NetXTelemetry.Telemetry.GetLastPacket | stm32/STWINBX1_WIFI-main/Projects/STWIN.box/Applications/NetXDuo/Nx_WebServer/NetXDuo/App/app_telemetry.c:188-196 | It returns 0 until a packet has been received, then 1 and a copy of the cached packet. |
| NetXTelemetry.Telemetry.TransmitPacket | stm32/STWINBX1_WIFI-main/Projects/STWIN.box/Applications/NetXDuo/Nx_WebServer/NetXDuo/App/app_telemetry.c:327-384 | Without an IP instance it is a pointer error. A failed allocation is counted here and its status returned. Otherwise the 64 encoded bytes go to `Destination()`, never address 0, decode back to the packet, and the send status is returned. |
| NetXTelemetry.Telemetry.Deliver | stm32/STWINBX1_WIFI-main/Projects/STWIN.box/Applications/NetXDuo/Nx_WebServer/NetXDuo/App/app_telemetry.c:255-270 | The packet is cached whatever the outcome. A success raises the tx count. A send failure raises the error count once, and an allocation failure raises it twice. |
| NetXTelemetry.Telemetry.Step | stm32/STWINBX1_WIFI-main/Projects/STWIN.box/Applications/NetXDuo/Nx_WebServer/NetXDuo/App/app_telemetry.c:217-272 | Not running, not ready, or a timeout: nothing changes. Another receive error raises the error count by one. A received packet is delivered as above. |

## Left out

- Floating-point maths is not reproduced, because the model cannot match IEEE single and double rounding bit for bit. This covers the square root and division behind RMS, the `log10f` behind SPL, and the Goertzel recurrence with its `cos`, `sin` and `sqrt`. The results of these computations are inputs bundled in `FloatMath`. Only what the firmware does with them in integer arithmetic is modelled: the guards, saturations, truncations, bin ranges and clamps.
- AudioFeatures.CalculateSpl: states the clamp and truncation applied to the level, not the logarithm that produces the level.
- ThreadX and NetX Duo calls are inputs giving the status each call would return, because they are foreign code: queue receive and send, thread create, resume and suspend, byte allocation, socket create and bind, and packet allocate, append, send and release. Numeric status codes are abstracted into `Status`. Sleeps and timeouts are not modelled.
- The mutexes around the ring buffers are left out, and so is the race between the NetX sender and the dashboard reading its cache. Each operation is modelled as atomic.
- NULL-pointer guards on caller-supplied buffers cannot arise for Dafny values, so they are not modelled. These are `samples`, `bands`, `pkt`, `out` and `buf`. The guards on module resources are modelled as presence flags: pool, queue, IP instance and thread stack.
- The trivial getters are plain field reads in the model: `GetTxCount`, `GetErrorCount`, `GetPacketCount` and `IsReady`. `FeatureExtraction_GetOutputQueue` is not modelled either, because it only exposes a queue handle.
- `FeatureExtraction_Init` and `AudioFeatures_Init` are not modelled separately, because the first only allocates the stack and queue and creates the thread, and the second does nothing. The class constructor stands for the zeroed context they leave.
- CoreTelemetry.Telemetry.AddPacket: the allocation waits forever, so once leaked packets exhaust `AppPool` the caller blocks. The model counts the leaked packets but takes the allocation's outcome as an input, so it does not capture the blocking.
- The `Core/Src` packet is an opaque record whose float fields are Dafny `real`s. It is sent as the raw in-memory struct, so no wire format is modelled for it.
- `printf` logging, thread stack sizes and priorities, `app_threadx.c` startup and DHCP wait, and the `audio.h` HAL stubs are not part of this model.
- FeatureExtraction.OrAll: the firmware keeps the merged flags in a `uint32_t`. Only `uint8_t` values are ever merged in, so its upper 24 bits are always zero, and the model holds it in eight bits.
- The packet header comment in `audio_features.h` speaks of 8 frames per packet. The code defines 4 frames of 512 samples, and the model follows the code.
- FeatureExtraction.FeatureExtractor.Step: the `zcr_count` packet field is the firmware's approximation `sample_count / 2`, which is 1024 for every packet, and not the crossing count. The model states exactly that.
