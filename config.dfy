/** The compile-time settings of solarweather/Config.h that the core uses. */
module Config {

  const WIFI_SID: string := "sid"
  const WIFI_PW: string := "password"

  const MQTT_NAME: string := "SnorkTracker"
  const MQTT_ID: string := "01"
  const MQTT_SERVER: string := "server"
  const MQTT_PORT: int := 1883
  const MQTT_USER: string := "user"
  const MQTT_PASSWORD: string := "password"
}
