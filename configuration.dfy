/**
 * The settings store of the plant pot (lib/Configuration/Configuration.cpp).
 *
 * Three settings records (LED colour, MQTT intervals, plant care) live in
 * file-scope globals that every `Configuration` object reads and writes; here
 * they are the fields of one `SettingsStore` object that every `Configuration`
 * holds a reference to. A `Configuration` itself only owns the five EEPROM
 * addresses of the records, computed once by its constructors.
 *
 * Record sizes (`sizeof`) and the compiled-in `DEFAULT_*` values come from a
 * header that is not part of this model, so they are constants without a value.
 */
module Configuration {
  import opened Integers

  type Positive = n: nat | n > 0 witness 1

  // sizeof(LedSettings), sizeof(MQTTSettings), sizeof(PlantCareSettings)
  const LED_SETTINGS_SIZE: Positive
  const MQTT_SETTINGS_SIZE: Positive
  const PLANT_CARE_SETTINGS_SIZE: Positive

  /** The number of bytes the three records occupy together. */
  const SETTINGS_REGION_SIZE: nat := LED_SETTINGS_SIZE + MQTT_SETTINGS_SIZE + PLANT_CARE_SETTINGS_SIZE

  const DEFAULT_EEPROM_ADDRESS_OFFSET: nat

  const DEFAULT_SETTING_LED_RED: int
  const DEFAULT_SETTING_LED_GREEN: int
  const DEFAULT_SETTING_LED_BLUE: int
  const DEFAULT_SETTING_MQTT_PING_INTERVAL: int
  const DEFAULT_SETTING_MQTT_WARNING_INTERVAL: int
  const DEFAULT_SETTING_MQTT_STATISTIC_INTERVAL: int
  const DEFAULT_SETTING_MQTT_RESERVOIR_WARNING_THRESHOLD: int
  const DEFAULT_SETTING_PLANT_CARE_MEASURE_INTERVAL: int
  const DEFAULT_SETTING_PLANT_CARE_SLEEP_AFTER_WATER: int
  const DEFAULT_SETTING_PLANT_CARE_MOISTURE_OPTIMAL: int

  // ---------------------------------------------------------------------------
  // Records and the shared image
  // ---------------------------------------------------------------------------

  datatype LedSettings = LedSettings(red: Uint8, green: Uint8, blue: Uint8)

  datatype MqttSettings = MqttSettings(
    pingBrokerInterval: Uint16,
    resendWarningInterval: Uint16,
    statisticPublishInterval: Uint16,
    publishReservoirWarningThreshold: Uint8)

  datatype PlantCareSettings = PlantCareSettings(
    takeMeasurementInterval: Uint16,
    sleepAfterGivingWater: Uint16,
    groundMoistureOptimal: Uint8)

  /** The three records as a value: what the shared globals hold at one moment. */
  datatype SettingsImage = SettingsImage(led: LedSettings, mqtt: MqttSettings, plantCare: PlantCareSettings)

  /** The globals' initial value: `= {}` zero-initialises every field. */
  const ZERO_IMAGE := SettingsImage(
    LedSettings(0, 0, 0),
    MqttSettings(0, 0, 0, 0),
    PlantCareSettings(0, 0, 0))

  /** The LED record `resetToDefaults` writes, each default cast to `uint8_t`. */
  function DefaultLedSettings(): LedSettings {
    LedSettings(
      ToUint8(DEFAULT_SETTING_LED_RED),
      ToUint8(DEFAULT_SETTING_LED_GREEN),
      ToUint8(DEFAULT_SETTING_LED_BLUE))
  }

  /** The plant-care record `resetToDefaults` writes, with the casts of the source. */
  function DefaultPlantCareSettings(): PlantCareSettings {
    PlantCareSettings(
      ToUint16(DEFAULT_SETTING_PLANT_CARE_MEASURE_INTERVAL),
      ToUint16(DEFAULT_SETTING_PLANT_CARE_SLEEP_AFTER_WATER),
      ToUint8(DEFAULT_SETTING_PLANT_CARE_MOISTURE_OPTIMAL))
  }

  // ---------------------------------------------------------------------------
  // The store operations on values (the specification of the methods below)
  // ---------------------------------------------------------------------------

  /**
   * `resetToDefaults`: the MQTT record gets four writes, but the second write of
   * `resendWarningInterval` (the reservoir-threshold default, cast to `uint8_t`)
   * replaces the first, and `publishReservoirWarningThreshold` is never written.
   */
  function Reset(img: SettingsImage): SettingsImage {
    img.(
      led := DefaultLedSettings(),
      mqtt := img.mqtt.(
        pingBrokerInterval := ToUint16(DEFAULT_SETTING_MQTT_PING_INTERVAL),
        statisticPublishInterval := ToUint16(DEFAULT_SETTING_MQTT_STATISTIC_INTERVAL),
        resendWarningInterval := ToUint8(DEFAULT_SETTING_MQTT_RESERVOIR_WARNING_THRESHOLD)),
      plantCare := DefaultPlantCareSettings())
  }

  /** `setLedSettings(red, green, blue)`. */
  function SetLed(img: SettingsImage, red: Uint8, green: Uint8, blue: Uint8): SettingsImage {
    img.(led := LedSettings(red, green, blue))
  }

  /**
   * `setMQTTSettings(statisticPublishInterval, resendWarningInterval,
   * pingBrokerInterval, publishReservoirWarningThreshold)` as written: the
   * statistic argument goes to the ping field, the ping argument to the
   * statistic field, and the threshold overwrites `resendWarningInterval`.
   */
  function SetMqtt(img: SettingsImage, statisticPublishInterval: Uint16, resendWarningInterval: Uint16,
                   pingBrokerInterval: Uint16, publishReservoirWarningThreshold: Uint8): SettingsImage
  {
    img.(mqtt := img.mqtt.(
      pingBrokerInterval := statisticPublishInterval,
      statisticPublishInterval := pingBrokerInterval,
      resendWarningInterval := publishReservoirWarningThreshold))
  }

  /** `setPlantCareSettings(takeMeasurementInterval, sleepAfterGivingWater, groundMoistureOptimal)`. */
  function SetPlantCare(img: SettingsImage, takeMeasurementInterval: Uint16, sleepAfterGivingWater: Uint16,
                        groundMoistureOptimal: Uint8): SettingsImage
  {
    img.(plantCare := PlantCareSettings(takeMeasurementInterval, sleepAfterGivingWater, groundMoistureOptimal))
  }

  /** How the record overload of `setMQTTSettings` forwards its argument's fields. */
  function SetMqttRecord(img: SettingsImage, settings: MqttSettings): SettingsImage {
    SetMqtt(img, settings.statisticPublishInterval, settings.resendWarningInterval,
            settings.pingBrokerInterval, settings.publishReservoirWarningThreshold)
  }

  // ---------------------------------------------------------------------------
  // Address layout
  // ---------------------------------------------------------------------------

  /** The five addresses a `Configuration` holds. */
  datatype Layout = Layout(led: nat, mqtt: nat, plantCare: nat, start: nat, end: nat)

  /** What both constructors compute from the base offset. */
  function ComputeLayout(offset: nat): Layout {
    var led := offset;
    var mqtt := led + LED_SETTINGS_SIZE;
    var plantCare := mqtt + MQTT_SETTINGS_SIZE;
    Layout(led, mqtt, plantCare, led, plantCare + PLANT_CARE_SETTINGS_SIZE)
  }

  predicate InLedRegion(l: Layout, a: int) { l.led <= a < l.led + LED_SETTINGS_SIZE }
  predicate InMqttRegion(l: Layout, a: int) { l.mqtt <= a < l.mqtt + MQTT_SETTINGS_SIZE }
  predicate InPlantCareRegion(l: Layout, a: int) { l.plantCare <= a < l.plantCare + PLANT_CARE_SETTINGS_SIZE }

  // ---------------------------------------------------------------------------
  // The shared store and the Configuration class
  // ---------------------------------------------------------------------------

  /** The three file-scope globals every `Configuration` shares. */
  class SettingsStore {
    var led: LedSettings
    var mqtt: MqttSettings
    var plantCare: PlantCareSettings

    constructor ()
      ensures Contents() == ZERO_IMAGE
    {
      led := LedSettings(0, 0, 0);
      mqtt := MqttSettings(0, 0, 0, 0);
      plantCare := PlantCareSettings(0, 0, 0);
    }

    function Contents(): SettingsImage
      reads this
    {
      SettingsImage(led, mqtt, plantCare)
    }
  }

  class Configuration {
    const store: SettingsStore
    var ledSettingsAddress: nat
    var mqttSettingsAddress: nat
    var plantCareSettingsAddress: nat
    var configurationStartAddress: nat
    var configurationEndAddress: nat

    function Addresses(): Layout
      reads this
    {
      Layout(ledSettingsAddress, mqttSettingsAddress, plantCareSettingsAddress,
             configurationStartAddress, configurationEndAddress)
    }

    /** The addresses are the layout computed from the LED record's address. */
    predicate Valid()
      reads this
    {
      Addresses() == ComputeLayout(ledSettingsAddress)
    }

    /** `Configuration()`: the records start at `DEFAULT_EEPROM_ADDRESS_OFFSET`. */
    constructor (store: SettingsStore)
      ensures this.store == store
      ensures Valid() && Addresses() == ComputeLayout(DEFAULT_EEPROM_ADDRESS_OFFSET)
    {
      this.store := store;
      new;
      ledSettingsAddress := DEFAULT_EEPROM_ADDRESS_OFFSET;
      mqttSettingsAddress := ledSettingsAddress + LED_SETTINGS_SIZE;
      plantCareSettingsAddress := mqttSettingsAddress + MQTT_SETTINGS_SIZE;
      configurationStartAddress := ledSettingsAddress;
      configurationEndAddress := plantCareSettingsAddress + PLANT_CARE_SETTINGS_SIZE;
    }

    /** `Configuration(uint8_t eepromAddressOffset)`. */
    constructor WithOffset(store: SettingsStore, eepromAddressOffset: Uint8)
      ensures this.store == store
      ensures Valid() && Addresses() == ComputeLayout(eepromAddressOffset)
    {
      this.store := store;
      new;
      ledSettingsAddress := eepromAddressOffset;
      mqttSettingsAddress := ledSettingsAddress + LED_SETTINGS_SIZE;
      plantCareSettingsAddress := mqttSettingsAddress + MQTT_SETTINGS_SIZE;
      configurationStartAddress := ledSettingsAddress;
      configurationEndAddress := plantCareSettingsAddress + PLANT_CARE_SETTINGS_SIZE;
    }

    method ResetToDefaults()
      modifies store
      ensures store.Contents() == Reset(old(store.Contents()))
    {
      store.led := store.led.(red := ToUint8(DEFAULT_SETTING_LED_RED));
      store.led := store.led.(green := ToUint8(DEFAULT_SETTING_LED_GREEN));
      store.led := store.led.(blue := ToUint8(DEFAULT_SETTING_LED_BLUE));

      store.mqtt := store.mqtt.(pingBrokerInterval := ToUint16(DEFAULT_SETTING_MQTT_PING_INTERVAL));
      store.mqtt := store.mqtt.(resendWarningInterval := ToUint16(DEFAULT_SETTING_MQTT_WARNING_INTERVAL));
      store.mqtt := store.mqtt.(statisticPublishInterval := ToUint16(DEFAULT_SETTING_MQTT_STATISTIC_INTERVAL));
      store.mqtt := store.mqtt.(resendWarningInterval := ToUint8(DEFAULT_SETTING_MQTT_RESERVOIR_WARNING_THRESHOLD));

      store.plantCare := store.plantCare.(takeMeasurementInterval := ToUint16(DEFAULT_SETTING_PLANT_CARE_MEASURE_INTERVAL));
      store.plantCare := store.plantCare.(sleepAfterGivingWater := ToUint16(DEFAULT_SETTING_PLANT_CARE_SLEEP_AFTER_WATER));
      store.plantCare := store.plantCare.(groundMoistureOptimal := ToUint8(DEFAULT_SETTING_PLANT_CARE_MOISTURE_OPTIMAL));
    }

    /** `getStartAddress`: the base offset, returned as `uint8_t`. */
    method GetStartAddress() returns (a: Uint8)
      requires Valid()
      ensures a == ToUint8(ledSettingsAddress)
    {
      a := ToUint8(configurationStartAddress);
    }

    /**
     * `getEndAddress`, returned as `uint8_t`: one past the last byte of the
     * plant-care record, congruent modulo 256 to the base offset plus the region size.
     */
    method GetEndAddress() returns (e: Uint8)
      requires Valid()
      ensures e == ToUint8(ledSettingsAddress + SETTINGS_REGION_SIZE)
      ensures (e - ToUint8(configurationStartAddress)) % 0x100 == ToUint8(SETTINGS_REGION_SIZE)
      ensures ledSettingsAddress + SETTINGS_REGION_SIZE < 0x100 ==> e == configurationStartAddress + SETTINGS_REGION_SIZE
    {
      e := ToUint8(configurationEndAddress);
      ToUint8Difference(configurationStartAddress, SETTINGS_REGION_SIZE);
    }

    /** `setLedSettings(LedSettings)`: forwards the three fields. */
    method SetLedSettingsRecord(settings: LedSettings)
      modifies store
      ensures store.Contents() == SetLed(old(store.Contents()), settings.red, settings.green, settings.blue)
    {
      SetLedSettings(settings.red, settings.green, settings.blue);
    }

    method SetLedSettings(red: Uint8, green: Uint8, blue: Uint8)
      modifies store
      ensures store.Contents() == SetLed(old(store.Contents()), red, green, blue)
    {
      store.led := store.led.(red := red);
      store.led := store.led.(green := green);
      store.led := store.led.(blue := blue);
    }

    /** `setMQTTSettings(MQTTSettings)`: forwards the fields in the order the source passes them. */
    method SetMqttSettingsRecord(settings: MqttSettings)
      modifies store
      ensures store.Contents() == SetMqttRecord(old(store.Contents()), settings)
    {
      SetMqttSettings(settings.statisticPublishInterval, settings.resendWarningInterval,
                      settings.pingBrokerInterval, settings.publishReservoirWarningThreshold);
    }

    method SetMqttSettings(statisticPublishInterval: Uint16, resendWarningInterval: Uint16,
                           pingBrokerInterval: Uint16, publishReservoirWarningThreshold: Uint8)
      modifies store
      ensures store.Contents() == SetMqtt(old(store.Contents()), statisticPublishInterval,
                                          resendWarningInterval, pingBrokerInterval,
                                          publishReservoirWarningThreshold)
    {
      store.mqtt := store.mqtt.(pingBrokerInterval := statisticPublishInterval);
      store.mqtt := store.mqtt.(resendWarningInterval := resendWarningInterval);
      store.mqtt := store.mqtt.(statisticPublishInterval := pingBrokerInterval);
      store.mqtt := store.mqtt.(resendWarningInterval := publishReservoirWarningThreshold);
    }

    /** `setPlantCareSettings(PlantCareSettings)`: forwards the three fields. */
    method SetPlantCareSettingsRecord(settings: PlantCareSettings)
      modifies store
      ensures store.Contents() == SetPlantCare(old(store.Contents()), settings.takeMeasurementInterval,
                                               settings.sleepAfterGivingWater, settings.groundMoistureOptimal)
    {
      SetPlantCareSettings(settings.takeMeasurementInterval, settings.sleepAfterGivingWater,
                           settings.groundMoistureOptimal);
    }

    method SetPlantCareSettings(takeMeasurementInterval: Uint16, sleepAfterGivingWater: Uint16,
                                groundMoistureOptimal: Uint8)
      modifies store
      ensures store.Contents() == SetPlantCare(old(store.Contents()), takeMeasurementInterval,
                                               sleepAfterGivingWater, groundMoistureOptimal)
    {
      store.plantCare := store.plantCare.(takeMeasurementInterval := takeMeasurementInterval);
      store.plantCare := store.plantCare.(sleepAfterGivingWater := sleepAfterGivingWater);
      store.plantCare := store.plantCare.(groundMoistureOptimal := groundMoistureOptimal);
    }

    /** The getters return a copy of the shared record and change nothing. */
    method GetLedSettings() returns (settings: LedSettings)
      ensures settings == store.Contents().led
    {
      settings := store.led;
    }

    method GetMqttSettings() returns (settings: MqttSettings)
      ensures settings == store.Contents().mqtt
    {
      settings := store.mqtt;
    }

    method GetPlantCareSettings() returns (settings: PlantCareSettings)
      ensures settings == store.Contents().plantCare
    {
      settings := store.plantCare;
    }
  }

  // ---------------------------------------------------------------------------
  // Properties of the layout
  // ---------------------------------------------------------------------------

  /** Each record starts where the previous one ends. */
  lemma LayoutContiguous(offset: nat)
    ensures ComputeLayout(offset).mqtt == ComputeLayout(offset).led + LED_SETTINGS_SIZE
    ensures ComputeLayout(offset).plantCare == ComputeLayout(offset).mqtt + MQTT_SETTINGS_SIZE
    ensures ComputeLayout(offset).end == ComputeLayout(offset).plantCare + PLANT_CARE_SETTINGS_SIZE
  {
  }

  /** The region starts at the offset and spans exactly the three record sizes. */
  lemma LayoutBounds(offset: nat)
    ensures ComputeLayout(offset).start == ComputeLayout(offset).led == offset
    ensures ComputeLayout(offset).end - ComputeLayout(offset).start == SETTINGS_REGION_SIZE
  {
  }

  /** Every address of the region lies in exactly one record, and no record lies outside it. */
  lemma LayoutPartition(offset: nat, a: int)
    ensures var l := ComputeLayout(offset);
      (l.start <= a < l.end <==> InLedRegion(l, a) || InMqttRegion(l, a) || InPlantCareRegion(l, a))
    ensures var l := ComputeLayout(offset);
      !(InLedRegion(l, a) && InMqttRegion(l, a)) &&
      !(InLedRegion(l, a) && InPlantCareRegion(l, a)) &&
      !(InMqttRegion(l, a) && InPlantCareRegion(l, a))
  {
  }

  /** The layout determines its offset: different offsets never share a layout. */
  lemma LayoutInjective(o1: nat, o2: nat)
    ensures ComputeLayout(o1) == ComputeLayout(o2) <==> o1 == o2
  {
  }

  /**
   * The getters give the same bytes whether the address fields are exact
   * integers or 8-bit fields in which every addition wraps.
   */
  lemma EightBitFieldsAgree(offset: nat)
    ensures var led8 := ToUint8(offset);
      var mqtt8 := ToUint8(led8 + LED_SETTINGS_SIZE);
      var plantCare8 := ToUint8(mqtt8 + MQTT_SETTINGS_SIZE);
      var end8 := ToUint8(plantCare8 + PLANT_CARE_SETTINGS_SIZE);
      ToUint8(led8) == ToUint8(ComputeLayout(offset).start) &&
      end8 == ToUint8(ComputeLayout(offset).end)
  {
    var led8 := ToUint8(offset);
    ToUint8OfSum(offset, LED_SETTINGS_SIZE);
    var mqtt8 := ToUint8(led8 + LED_SETTINGS_SIZE);
    ToUint8OfSum(offset + LED_SETTINGS_SIZE, MQTT_SETTINGS_SIZE);
    var plantCare8 := ToUint8(mqtt8 + MQTT_SETTINGS_SIZE);
    ToUint8OfSum(offset + LED_SETTINGS_SIZE + MQTT_SETTINGS_SIZE, PLANT_CARE_SETTINGS_SIZE);
  }

  /**
   * Both constructors agree: the default constructor lays out the records
   * exactly as the offset constructor does for `DEFAULT_EEPROM_ADDRESS_OFFSET`.
   */
  method ConstructorsAgree(store: SettingsStore) returns (byDefault: Configuration, byOffset: Configuration)
    requires DEFAULT_EEPROM_ADDRESS_OFFSET < 0x100
    ensures byDefault.Addresses() == byOffset.Addresses()
    ensures byDefault.store == byOffset.store == store
  {
    byDefault := new Configuration(store);
    byOffset := new Configuration.WithOffset(store, DEFAULT_EEPROM_ADDRESS_OFFSET);
  }

  /**
   * For every default offset, the default constructor and the offset
   * constructor given that offset as a `uint8_t` report the same start and
   * end bytes.
   */
  method ConstructorsAgreeOnGetters(store: SettingsStore)
    returns (startByDefault: Uint8, endByDefault: Uint8, startByOffset: Uint8, endByOffset: Uint8)
    ensures startByDefault == startByOffset == ToUint8(DEFAULT_EEPROM_ADDRESS_OFFSET)
    ensures endByDefault == endByOffset == ToUint8(DEFAULT_EEPROM_ADDRESS_OFFSET + SETTINGS_REGION_SIZE)
  {
    var byDefault := new Configuration(store);
    var byOffset := new Configuration.WithOffset(store, ToUint8(DEFAULT_EEPROM_ADDRESS_OFFSET));
    startByDefault := byDefault.GetStartAddress();
    endByDefault := byDefault.GetEndAddress();
    startByOffset := byOffset.GetStartAddress();
    endByOffset := byOffset.GetEndAddress();
    ToUint8OfSum(DEFAULT_EEPROM_ADDRESS_OFFSET, SETTINGS_REGION_SIZE);
  }

  /**
   * The records are shared: what one `Configuration` sets, any other one over
   * the same store reads back, whatever its own addresses.
   */
  method SharedAcrossInstances(store: SettingsStore, offset: Uint8, red: Uint8, green: Uint8, blue: Uint8)
    returns (settings: LedSettings)
    modifies store
    ensures settings == LedSettings(red, green, blue)
  {
    var writer := new Configuration(store);
    var reader := new Configuration.WithOffset(store, offset);
    writer.SetLedSettings(red, green, blue);
    settings := reader.GetLedSettings();
  }

  // ---------------------------------------------------------------------------
  // Properties of the store operations
  // ---------------------------------------------------------------------------

  /**
   * After a reset the LED and plant-care records are the defaults, ping and
   * statistic intervals are their defaults, `resendWarningInterval` holds the
   * reservoir-threshold default, and the threshold field keeps its old value.
   */
  lemma ResetRestoresDefaults(img: SettingsImage)
    ensures Reset(img).led == DefaultLedSettings()
    ensures Reset(img).plantCare == DefaultPlantCareSettings()
    ensures Reset(img).mqtt.pingBrokerInterval == ToUint16(DEFAULT_SETTING_MQTT_PING_INTERVAL)
    ensures Reset(img).mqtt.statisticPublishInterval == ToUint16(DEFAULT_SETTING_MQTT_STATISTIC_INTERVAL)
    ensures Reset(img).mqtt.resendWarningInterval == ToUint8(DEFAULT_SETTING_MQTT_RESERVOIR_WARNING_THRESHOLD)
    ensures Reset(img).mqtt.publishReservoirWarningThreshold == img.mqtt.publishReservoirWarningThreshold
  {
  }

  /** Resetting twice is resetting once. */
  lemma ResetIdempotent(img: SettingsImage)
    ensures Reset(Reset(img)) == Reset(img)
  {
  }

  /** A reset forgets every earlier setter except the threshold, which no setter touches. */
  lemma ResetForgetsSetters(img: SettingsImage, other: SettingsImage)
    requires img.mqtt.publishReservoirWarningThreshold == other.mqtt.publishReservoirWarningThreshold
    ensures Reset(img) == Reset(other)
  {
  }

  /** `setLedSettings` then `getLedSettings` returns the given colour; the other records are unchanged. */
  lemma SetLedThenGet(img: SettingsImage, red: Uint8, green: Uint8, blue: Uint8)
    ensures SetLed(img, red, green, blue).led == LedSettings(red, green, blue)
    ensures SetLed(img, red, green, blue).mqtt == img.mqtt
    ensures SetLed(img, red, green, blue).plantCare == img.plantCare
  {
  }

  /** The record overload of `setLedSettings` stores exactly its argument. */
  lemma SetLedRecordStoresRecord(img: SettingsImage, settings: LedSettings)
    ensures SetLed(img, settings.red, settings.green, settings.blue) == img.(led := settings)
  {
  }

  /** `setPlantCareSettings` then `getPlantCareSettings` returns the given fields; the other records are unchanged. */
  lemma SetPlantCareThenGet(img: SettingsImage, takeMeasurementInterval: Uint16,
                            sleepAfterGivingWater: Uint16, groundMoistureOptimal: Uint8)
    ensures var r := SetPlantCare(img, takeMeasurementInterval, sleepAfterGivingWater, groundMoistureOptimal);
      r.plantCare == PlantCareSettings(takeMeasurementInterval, sleepAfterGivingWater, groundMoistureOptimal) &&
      r.led == img.led && r.mqtt == img.mqtt
  {
  }

  /** The record overload of `setPlantCareSettings` stores exactly its argument. */
  lemma SetPlantCareRecordStoresRecord(img: SettingsImage, settings: PlantCareSettings)
    ensures SetPlantCare(img, settings.takeMeasurementInterval, settings.sleepAfterGivingWater,
                         settings.groundMoistureOptimal) == img.(plantCare := settings)
  {
  }

  /**
   * The record overload of `setMQTTSettings`, as written: ping and statistic
   * intervals are swapped, `resendWarningInterval` receives the threshold, the
   * threshold field is untouched, and the other records are unchanged.
   */
  lemma SetMqttRecordAsWritten(img: SettingsImage, settings: MqttSettings)
    ensures var r := SetMqttRecord(img, settings);
      r.mqtt.pingBrokerInterval == settings.statisticPublishInterval &&
      r.mqtt.statisticPublishInterval == settings.pingBrokerInterval &&
      r.mqtt.resendWarningInterval == settings.publishReservoirWarningThreshold &&
      r.mqtt.publishReservoirWarningThreshold == img.mqtt.publishReservoirWarningThreshold &&
      r.led == img.led && r.plantCare == img.plantCare
  {
  }

  /** The field overload of `setMQTTSettings` ignores its `resendWarningInterval` argument. */
  lemma SetMqttIgnoresResendArgument(img: SettingsImage, statistic: Uint16, resend1: Uint16, resend2: Uint16,
                                     ping: Uint16, threshold: Uint8)
    ensures SetMqtt(img, statistic, resend1, ping, threshold) == SetMqtt(img, statistic, resend2, ping, threshold)
  {
  }

  /**
   * Writing back the record `getMqttSettings` returned, through the record
   * overload, leaves the store unchanged exactly when ping and statistic
   * intervals agree and the resend interval equals the threshold.
   */
  lemma MqttGetSetRoundTrip(img: SettingsImage)
    ensures SetMqttRecord(img, img.mqtt) == img <==>
      img.mqtt.pingBrokerInterval == img.mqtt.statisticPublishInterval &&
      img.mqtt.resendWarningInterval == img.mqtt.publishReservoirWarningThreshold
  {
  }

  // ---------------------------------------------------------------------------
  // Invariants over any sequence of store operations
  // ---------------------------------------------------------------------------

  /** One call on the store: `resetToDefaults` or one of the field setters. */
  datatype StoreOp =
    | ResetOp
    | SetLedOp(red: Uint8, green: Uint8, blue: Uint8)
    | SetMqttOp(statistic: Uint16, resend: Uint16, ping: Uint16, threshold: Uint8)
    | SetPlantCareOp(measure: Uint16, sleep: Uint16, optimal: Uint8)

  function Step(img: SettingsImage, op: StoreOp): SettingsImage {
    match op
    case ResetOp => Reset(img)
    case SetLedOp(r, g, b) => SetLed(img, r, g, b)
    case SetMqttOp(s, w, p, t) => SetMqtt(img, s, w, p, t)
    case SetPlantCareOp(m, s, o) => SetPlantCare(img, m, s, o)
  }

  function Run(img: SettingsImage, ops: seq<StoreOp>): SettingsImage
    decreases |ops|
  {
    if ops == [] then img else Run(Step(img, ops[0]), ops[1..])
  }

  /** No operation of the store ever writes `publishReservoirWarningThreshold`. */
  lemma {:induction false} ThresholdNeverWritten(img: SettingsImage, ops: seq<StoreOp>)
    ensures Run(img, ops).mqtt.publishReservoirWarningThreshold == img.mqtt.publishReservoirWarningThreshold
    decreases |ops|
  {
    if ops != [] {
      ThresholdNeverWritten(Step(img, ops[0]), ops[1..]);
    }
  }

  /** So, starting from the zero-initialised globals, the threshold read back is always 0. */
  lemma ThresholdAlwaysZero(ops: seq<StoreOp>)
    ensures Run(ZERO_IMAGE, ops).mqtt.publishReservoirWarningThreshold == 0
  {
    ThresholdNeverWritten(ZERO_IMAGE, ops);
  }

  /**
   * Every write of `resendWarningInterval` that survives stores an 8-bit value,
   * so the 16-bit field never exceeds 255.
   */
  lemma {:induction false} ResendIntervalFitsByte(img: SettingsImage, ops: seq<StoreOp>)
    requires img.mqtt.resendWarningInterval < 0x100
    ensures Run(img, ops).mqtt.resendWarningInterval < 0x100
    decreases |ops|
  {
    if ops != [] {
      ResendIntervalFitsByte(Step(img, ops[0]), ops[1..]);
    }
  }

  /** Whatever the setters did before, a final reset leaves the records a reset of the starting image gives. */
  lemma {:induction false} ResetLastWins(img: SettingsImage, ops: seq<StoreOp>)
    ensures Run(img, ops + [ResetOp]) == Reset(img)
    decreases |ops|
  {
    if ops == [] {
    } else {
      assert (ops + [ResetOp])[1..] == ops[1..] + [ResetOp];
      ResetLastWins(Step(img, ops[0]), ops[1..]);
      ThresholdNeverWritten(img, [ops[0]]);
      assert Step(img, ops[0]).mqtt.publishReservoirWarningThreshold == img.mqtt.publishReservoirWarningThreshold;
    }
  }
}
