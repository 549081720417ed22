/** LangChain's `Document`: a piece of page text with its metadata mapping.
    Ingestion produces them and retrieval returns them. */
module Documents {

  /** A metadata value as the PDF loader emits it: text (`source`,
      `page_label`, `producer`, ...), whole numbers (`page`, `total_pages`),
      flags, or Python's `None`. */
  datatype MetaValue =
    | Text(text: string)
    | Number(number: int)
    | Flag(flag: bool)
    | Null

  type Metadata = map<string, MetaValue>

  datatype Chunk = Chunk(pageContent: string, metadata: Metadata)
}
