/** The commands the player thread sends to the decoder thread. */
module DecoderCommands {
  datatype DecoderCommand = NoCommand | Start | Stop | Seek
}
