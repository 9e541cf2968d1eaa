/** What both bots hand to Discord as autocomplete suggestions. */
module Discord {

  /** An application-command option choice: the text shown and the value sent back when it is picked. */
  datatype Choice = Choice(name: string, value: string)
}
