/** Build constants that several components share. */
module Platform {
  const UIP_BUFSIZE := 420
  const USER_PID_START := 6   // GPID_USER_START
}
