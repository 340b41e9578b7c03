/** The two speakers of a chat conversation, shared by every export path. */
module Chat {

  datatype Role = User | Assistant
}
