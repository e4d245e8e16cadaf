/**
 * The parts of the Telegram Bot API types (from the `pw_telegram_bot_fork` crate) that the
 * worker reads: a message, its kind, and the attachments each kind carries. Only the fields
 * the worker looks at are kept; Rust's `i64` fields are `int` here.
 */
module Telegram {
  import opened Wrappers

  /** One size of a photo; `file_size` is optional in the Bot API */
  datatype PhotoSize = PhotoSize(fileId: string, width: int, height: int, fileSize: Option<int>)

  datatype Audio = Audio(
    fileId: string, fileSize: Option<int>, duration: int,
    performer: Option<string>, title: Option<string>, mimeType: Option<string>)

  datatype Voice = Voice(fileId: string, fileSize: Option<int>, duration: int, mimeType: Option<string>)

  datatype Document = Document(
    fileId: string, fileSize: Option<int>, fileName: Option<string>, mimeType: Option<string>)

  datatype Sticker = Sticker(fileId: string, emoji: Option<string>, setName: Option<string>)

  datatype Video = Video(
    fileId: string, duration: int, width: int, height: int,
    thumb: Option<PhotoSize>, mimeType: Option<string>)

  datatype VideoNote = VideoNote(fileId: string, duration: int, thumb: Option<PhotoSize>)

  /** A user; only the numeric id is read */
  datatype User = User(id: int)

  /** `MessageEntityKind`; `Unknown` carries the raw kind name the library did not recognise */
  datatype EntityKind =
    | Mention | Hashtag | BotCommand | Url | Email | Bold | Italic | Code | Pre
    | TextLink(url: string)
    | TextMention(user: User)
    | Unknown(raw: string)
  {
    /** The variant's name */
    function Name(): string {
      match this
      case Mention => "Mention"
      case Hashtag => "Hashtag"
      case BotCommand => "BotCommand"
      case Url => "Url"
      case Email => "Email"
      case Bold => "Bold"
      case Italic => "Italic"
      case Code => "Code"
      case Pre => "Pre"
      case TextLink(_) => "TextLink"
      case TextMention(_) => "TextMention"
      case Unknown(_) => "Unknown"
    }
  }

  datatype MessageEntity = MessageEntity(offset: int, length: int, kind: EntityKind)

  /**
   * `MessageKind`. Contact, Location, Poll and Venue are kept without their payloads, which
   * the worker only copies field by field.
   */
  datatype MessageKind =
    | Text(data: string, entities: seq<MessageEntity>)
    | Audio(audio: Audio)
    | Document(document: Document, caption: Option<string>)
    | Photo(photos: seq<PhotoSize>, caption: Option<string>)
    | Sticker(sticker: Sticker)
    | Video(video: Video, caption: Option<string>)
    | Voice(voice: Voice)
    | VideoNote(videoNote: VideoNote)
    | Contact
    | Location
    | Poll
    | Venue
    | NewChatMembers
    | LeftChatMember
    | NewChatTitle(title: string)
    | NewChatPhoto(photos: seq<PhotoSize>)
    | DeleteChatPhoto
    | PinnedMessage(pinnedText: Option<string>, pinnedId: int)
    | GroupChatCreated
    | SupergroupChatCreated
    | ChannelChatCreated
    | MigrateToChatId
    | MigrateFromChatId
    | Unknown
  {
    /** The variant's name */
    function Name(): string {
      match this
      case Text(_, _) => "Text"
      case Audio(_) => "Audio"
      case Document(_, _) => "Document"
      case Photo(_, _) => "Photo"
      case Sticker(_) => "Sticker"
      case Video(_, _) => "Video"
      case Voice(_) => "Voice"
      case VideoNote(_) => "VideoNote"
      case Contact => "Contact"
      case Location => "Location"
      case Poll => "Poll"
      case Venue => "Venue"
      case NewChatMembers => "NewChatMembers"
      case LeftChatMember => "LeftChatMember"
      case NewChatTitle(_) => "NewChatTitle"
      case NewChatPhoto(_) => "NewChatPhoto"
      case DeleteChatPhoto => "DeleteChatPhoto"
      case PinnedMessage(_, _) => "PinnedMessage"
      case GroupChatCreated => "GroupChatCreated"
      case SupergroupChatCreated => "SupergroupChatCreated"
      case ChannelChatCreated => "ChannelChatCreated"
      case MigrateToChatId => "MigrateToChatId"
      case MigrateFromChatId => "MigrateFromChatId"
      case Unknown => "Unknown"
    }
  }

  /** A message: its id, the sender's user id, the date (Unix seconds), the chat id and the kind */
  datatype Message = Message(id: int, from: int, date: int, chat: int, kind: MessageKind)

  /** An item of the update stream: a message, another kind of update, or a stream error */
  datatype Update = MessageUpdate(message: Message) | OtherUpdate | StreamError
}
