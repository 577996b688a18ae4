/**
 * The audio-device catalogue both recording forms show: entry 0 is the system
 * audio (WASAPI loopback), entry k + 1 is wave-in input device k.
 */
module Devices {

  const SystemAudioLabel: string := "Dźwięk systemowy"
  const MicrophonePrefix: string := "Mikrofon: "

  /** What a catalogue entry stands for. */
  datatype Entry = SystemAudio | InputDevice(number: int)

  /** A wave-in capture as configured before it starts: device number, sample rate, channels. */
  datatype WaveInConfig = WaveInConfig(device: int, sampleRate: int, channels: nat)

  /** The catalogue for the input devices whose product names are `names`, in device order. */
  function Catalogue(names: seq<string>): (r: seq<string>)
    ensures |r| == |names| + 1
  {
    [SystemAudioLabel] + seq(|names|, k requires 0 <= k < |names| => MicrophonePrefix + names[k])
  }

  /** The entry a selected index denotes; any index other than 0 is shifted down by one. */
  function EntryAt(index: int): (e: Entry)
    ensures e == SystemAudio <==> index == 0
  {
    if index == 0 then SystemAudio else InputDevice(index - 1)
  }

  /** The catalogue index of an entry. */
  function IndexOf(e: Entry): int
  {
    match e
    case SystemAudio => 0
    case InputDevice(n) => n + 1
  }

  /** The text an entry is listed under. */
  function Label(names: seq<string>, e: Entry): string
    requires e.InputDevice? ==> 0 <= e.number < |names|
  {
    match e
    case SystemAudio => SystemAudioLabel
    case InputDevice(n) => MicrophonePrefix + names[n]
  }

  predicate StartsWith(s: string, prefix: string)
  {
    |prefix| <= |s| && s[..|prefix|] == prefix
  }

  /** Selecting an index and reading its position back gives the same index. */
  lemma IndexRoundTrip(index: int)
    ensures IndexOf(EntryAt(index)) == index
  {
  }

  /** Every real device's entry sits one past its device number. */
  lemma EntryRoundTrip(e: Entry)
    requires e.InputDevice? ==> e.number >= 0
    ensures EntryAt(IndexOf(e)) == e
  {
  }

  /**
   * Each listed text names the entry its index selects: 0 is the system audio,
   * k + 1 is "Mikrofon: " followed by the name of input device k.
   */
  lemma CatalogueLabels(names: seq<string>, index: int)
    requires 0 <= index < |Catalogue(names)|
    ensures Catalogue(names)[index] == Label(names, EntryAt(index))
    ensures StartsWith(Catalogue(names)[index], MicrophonePrefix) <==> index > 0
  {
    var c := Catalogue(names);
    if index == 0 {
      assert c[0] == SystemAudioLabel;
      assert SystemAudioLabel[0] != MicrophonePrefix[0];
    } else {
      assert c[index] == MicrophonePrefix + names[index - 1];
      assert (MicrophonePrefix + names[index - 1])[..|MicrophonePrefix|] == MicrophonePrefix;
    }
  }
}
